/** The snapshot cache in front of the access resolver: the in-memory store and the read-through resolver. */
module AccessCache {
  import opened Prelude
  import opened Authorization

  datatype Entry = Entry(snapshot: EffectiveAccess, expires: Time)

  const DEFAULT_TTL: Time := 300 * SECOND

  function Key(membershipID: string, companyID: string): string { membershipID + "@" + companyID }

  function KeyOf(snapshot: EffectiveAccess): string { Key(snapshot.membershipID, snapshot.companyID) }

  function Lookup(items: map<string, Entry>, key: string): Option<Entry> {
    if key in items then Some(items[key]) else None
  }

  /** An entry answers up to and including the instant at which it expires. */
  function HitAt(item: Option<Entry>, now: Time): Option<EffectiveAccess> {
    if item.Some? && now <= item.value.expires then Some(item.value.snapshot) else None
  }

  /** What a resolve answers, given the base's answer. */
  function Answer(items: map<string, Entry>, key: string, fromBase: Option<EffectiveAccess>, readAt: Time)
    : Option<EffectiveAccess>
  {
    var cached := HitAt(Lookup(items, key), readAt);
    if cached.Some? then cached else fromBase
  }

  /** The entries after a resolve that puts at `putAt`. */
  function Refilled(items: map<string, Entry>, key: string, fromBase: Option<EffectiveAccess>, readAt: Time,
                    putAt: Time, ttl: Time): map<string, Entry>
  {
    if HitAt(Lookup(items, key), readAt).Some? then items
    else if fromBase.None? then items - {key}
    else (items - {key})[KeyOf(fromBase.value) := Entry(fromBase.value, putAt + ttl)]
  }

  class InMemoryStore {
    const ttl: Time
    var items: map<string, Entry>

    constructor (ttl: Time)
      ensures this.ttl > 0 && (ttl > 0 ==> this.ttl == ttl) && (ttl <= 0 ==> this.ttl == 5 * 60 * SECOND)
      ensures items == map[]
    {
      this.ttl := if ttl <= 0 then DEFAULT_TTL else ttl;
      items := map[];
    }

    /** Read section, comparison with the clock, and delete section when the entry is stale. */
    method Get(membershipID: string, companyID: string, now: Time) returns (hit: Option<EffectiveAccess>)
      modifies this`items
      ensures hit == HitAt(Lookup(old(items), Key(membershipID, companyID)), now)
      ensures var k := membershipID + "@" + companyID;
              hit == if k in old(items) && now <= old(items)[k].expires then Some(old(items)[k].snapshot) else None
      ensures hit.Some? ==> items == old(items)
      ensures hit.None? ==> items == old(items) - {Key(membershipID, companyID)}
    {
      var item := Lookup(items, Key(membershipID, companyID));
      if item.None? || now > item.value.expires {
        if item.Some? {
          items := items - {Key(membershipID, companyID)};
        }
        return None;
      }
      return Some(item.value.snapshot);
    }

    method Put(snapshot: Option<EffectiveAccess>, now: Time)
      modifies this`items
      ensures snapshot.None? ==> items == old(items)
      ensures snapshot.Some? ==> items == old(items)[KeyOf(snapshot.value) := Entry(snapshot.value, now + ttl)]
    {
      if snapshot.None? {
        return;
      }
      items := items[KeyOf(snapshot.value) := Entry(snapshot.value, now + ttl)];
    }
  }

  class CachedResolver {
    const store: InMemoryStore

    constructor (store: InMemoryStore)
      ensures this.store == store
    {
      this.store := store;
    }

    /** `base` is what the base resolver answers now; `readAt` and `putAt` are the two clock readings. */
    method Resolve(membershipID: string, companyID: string, base: (string, string) -> Option<EffectiveAccess>,
                   readAt: Time, putAt: Time)
      returns (res: Option<EffectiveAccess>)
      modifies store`items
      ensures res == Answer(old(store.items), Key(membershipID, companyID), base(membershipID, companyID), readAt)
      ensures store.items == Refilled(old(store.items), Key(membershipID, companyID), base(membershipID, companyID),
                                      readAt, putAt, store.ttl)
    {
      var cached := store.Get(membershipID, companyID, readAt);
      if cached.Some? {
        return cached;
      }
      res := base(membershipID, companyID);
      if res.None? {
        return;
      }
      store.Put(res, putAt);
    }
  }

  // ---------------------------------------------------------------- keys

  lemma OnlyOneSplit(m: string, c: string, otherM: string, otherC: string)
    requires '@' !in m && '@' !in c && Key(otherM, otherC) == Key(m, c)
    ensures otherM == m && otherC == c
  {
    var k := Key(m, c);
    assert forall i :: 0 <= i < |m| ==> k[i] == m[i];
    assert forall i :: |m| < i < |k| ==> k[i] == c[i - |m| - 1];
    assert k[|otherM|] == '@';
    assert |otherM| == |m|;
    assert m == k[..|m|] && otherM == k[..|m|] && c == k[|m| + 1..] && otherC == k[|m| + 1..];
  }

  /** A pair has its cache key to itself exactly when neither of its ids holds an '@'. */
  lemma KeyIsOwnIff(m: string, c: string)
    ensures (forall otherM, otherC :: Key(otherM, otherC) == Key(m, c) ==> otherM == m && otherC == c)
            <==> '@' !in m && '@' !in c
  {
    if '@' in m {
      var i :| 0 <= i < |m| && m[i] == '@';
      var (shortM, longC) := (m[..i], m[i + 1..] + "@" + c);
      assert m == m[..i] + "@" + m[i + 1..];
      assert Key(shortM, longC) == Key(m, c) && shortM != m;
    } else if '@' in c {
      var i :| 0 <= i < |c| && c[i] == '@';
      var (longM, shortC) := (m + "@" + c[..i], c[i + 1..]);
      assert c == c[..i] + "@" + c[i + 1..];
      assert Key(longM, shortC) == Key(m, c) && longM != m;
    } else {
      forall otherM, otherC | Key(otherM, otherC) == Key(m, c) ensures otherM == m && otherC == c {
        OnlyOneSplit(m, c, otherM, otherC);
      }
    }
  }
}
