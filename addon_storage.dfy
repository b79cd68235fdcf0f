/**
 * The per-client-type add-on store the service reads and rewrites.
 * Only the three operations the service calls are modelled.
 */
module AddonStorage {
  import opened Entities

  /** The records of `addons` that belong to client type `c`, in their given order. */
  function OfClientType(addons: seq<Addon>, c: ClientType): (r: seq<Addon>)
    ensures |r| <= |addons|
    ensures forall k :: 0 <= k < |r| ==> r[k] in addons && r[k].clientType == c
    ensures forall a :: a in addons && a.clientType == c ==> a in r
    ensures (forall k :: 0 <= k < |addons| ==> addons[k].clientType == c) ==> r == addons
    ensures (forall k :: 0 <= k < |addons| ==> addons[k].clientType != c) ==> r == []
  {
    if |addons| == 0 then []
    else if addons[0].clientType == c then [addons[0]] + OfClientType(addons[1..], c)
    else OfClientType(addons[1..], c)
  }

  /** Selecting a client type's records keeps their relative order. */
  lemma {:induction false} OfClientTypeAppend(x: seq<Addon>, y: seq<Addon>, c: ClientType)
    ensures OfClientType(x + y, c) == OfClientType(x, c) + OfClientType(y, c)
  {
    if |x| == 0 {
      assert x + y == y;
    } else {
      assert (x + y)[0] == x[0];
      assert (x + y)[1..] == x[1..] + y;
      OfClientTypeAppend(x[1..], y, c);
    }
  }

  class AddonStorageService {
    /** The stored records, grouped by client type. */
    var records: map<ClientType, seq<Addon>>

    constructor ()
      ensures records == map[]
    {
      records := map[];
    }

    /** What the store holds for client type `c` (nothing when the key is absent). */
    function ForClientType(c: ClientType): seq<Addon>
      reads this
    {
      if c in records then records[c] else []
    }

    method GetAllForClientType(c: ClientType) returns (addons: seq<Addon>)
      ensures addons == ForClientType(c)
    {
      addons := if c in records then records[c] else [];
    }

    method RemoveForClientType(c: ClientType)
      modifies this
      ensures records == old(records) - {c}
      ensures ForClientType(c) == []
      ensures forall d :: d != c ==> ForClientType(d) == old(ForClientType(d))
    {
      records := records - {c};
    }

    /** Writes every record under its own client type, after what is already stored there. */
    method SetAll(addons: seq<Addon>)
      modifies this
      ensures forall c :: ForClientType(c) == old(ForClientType(c)) + OfClientType(addons, c)
    {
      var keys := records.Keys + (set a | a in addons :: a.clientType);
      records := map c | c in keys :: ForClientType(c) + OfClientType(addons, c);
      forall c | c !in keys
        ensures OfClientType(addons, c) == []
      {
        assert forall k :: 0 <= k < |addons| ==> addons[k] in addons;
      }
    }
  }
}
