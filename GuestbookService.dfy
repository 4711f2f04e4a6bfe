/**
 * The guestbook's mock back end (services/guestbookService.ts): one storage
 * slot holding the entries, newest first. The first fetch over an empty slot
 * seeds it with two entries; an add reads the slot, prepends the new entry
 * and writes it back. The clock (`Date.now()`) and the coin behind the
 * accent colour (`Math.random() > 0.5`) are parameters.
 */
module GuestbookService {
  import opened Types

  /** Milliseconds in a day: the seed entries are one and two days old. */
  const Day: int := 86400000

  /** The two entries the first fetch writes into an empty slot. */
  function Seed(now: int): seq<GuestbookEntry> {
    [ GuestbookEntry(1, "Charles", "Love the aesthetic! Clean transitions.", now - Day, "#ff00ff"),
      GuestbookEntry(2, "Sarah", "Aimal, this portfolio is sick. Linux forever.", now - 2 * Day, "#00ffff") ]
  }

  /** The seed: ids 1 and 2, Charles then Sarah, a day and two days before `now`, pink and cyan. */
  lemma SeedEntries(now: int)
    ensures |Seed(now)| == 2
    ensures Seed(now)[0].id == 1 && Seed(now)[0].name == "Charles" && Seed(now)[0].signature == "#ff00ff"
    ensures Seed(now)[1].id == 2 && Seed(now)[1].name == "Sarah" && Seed(now)[1].signature == "#00ffff"
    ensures Seed(now)[0].createdAt == now - 86400000 && Seed(now)[1].createdAt == now - 172800000
  {
  }

  /** The entries a slot holds; an absent slot reads as none (`getItem(...) || '[]'`). */
  function Stored(slot: Option<seq<GuestbookEntry>>): seq<GuestbookEntry> {
    if slot.Some? then slot.value else []
  }

  /** `fetchEntries`: the new slot and the entries returned. */
  function Fetch(slot: Option<seq<GuestbookEntry>>, now: int): (r: (Option<seq<GuestbookEntry>>, seq<GuestbookEntry>))
    ensures r.0 == Some(r.1)
    ensures slot.Some? ==> r.1 == slot.value
    ensures slot.None? ==> r.1 == Seed(now)
  {
    if slot.Some? then (slot, slot.value) else (Some(Seed(now)), Seed(now))
  }

  /** A second fetch, at any time, changes nothing and returns what the first returned. */
  lemma FetchIsStable(slot: Option<seq<GuestbookEntry>>, t1: int, t2: int)
    ensures Fetch(Fetch(slot, t1).0, t2) == Fetch(slot, t1)
  {
  }

  /** The accent colour of a stored entry. */
  function Accent(coin: bool): string {
    if coin then "#b8bb26" else "#cc241d"
  }

  /** The entry `addEntry` creates: the name and message verbatim, stamped with `now`. */
  function NewEntry(name: string, message: string, now: int, coin: bool): (e: GuestbookEntry)
    ensures e.name == name && e.message == message
    ensures e.id == now && e.createdAt == now
    ensures e.signature == "#b8bb26" || e.signature == "#cc241d"
  {
    GuestbookEntry(now, name, message, now, Accent(coin))
  }

  /** `addEntry`'s write: the new entry in front of what was stored. */
  function Add(slot: Option<seq<GuestbookEntry>>, e: GuestbookEntry): Option<seq<GuestbookEntry>> {
    Some([e] + Stored(slot))
  }

  /** Adding grows the collection by one: the new entry first, the old ones after it unchanged. */
  lemma AddPrepends(slot: Option<seq<GuestbookEntry>>, e: GuestbookEntry)
    ensures Add(slot, e).Some?
    ensures |Stored(Add(slot, e))| == |Stored(slot)| + 1
    ensures Stored(Add(slot, e))[0] == e
    ensures Stored(Add(slot, e))[1..] == Stored(slot)
  {
  }

  /** An add never seeds: over an absent slot the store holds the new entry alone. */
  lemma AddToAbsentSlot(e: GuestbookEntry)
    ensures Add(None, e) == Some([e])
  {
    assert [e] + [] == [e];
  }

  /**
   * With a clock past every stored id, the added entry's id is the largest:
   * the ids follow the clock, newest first.
   */
  lemma NewestIdLargest(slot: Option<seq<GuestbookEntry>>, name: string, message: string, now: int, coin: bool)
    requires forall x :: x in Stored(slot) ==> x.id < now
    ensures var st := Stored(Add(slot, NewEntry(name, message, now, coin)));
      forall k :: 1 <= k < |st| ==> st[k].id < st[0].id
  {
  }

  /** Two adds in the same millisecond give entries with the same id. */
  lemma SameMillisecondSameId(slot: Option<seq<GuestbookEntry>>, n1: string, m1: string, n2: string, m2: string, now: int, c1: bool, c2: bool)
    ensures var st := Stored(Add(Add(slot, NewEntry(n1, m1, now, c1)), NewEntry(n2, m2, now, c2)));
      st[0].id == st[1].id
  {
  }

  /** A fetch after an add returns the added entry first. */
  lemma FetchAfterAdd(slot: Option<seq<GuestbookEntry>>, e: GuestbookEntry, now: int)
    ensures Fetch(Add(slot, e), now).1 == [e] + Stored(slot)
  {
  }

  /** A first fetch, then adds of `a`, `b` and `c`: the store reads c, b, a, Charles, Sarah. */
  lemma FetchThenThreeAdds(t0: int, a: GuestbookEntry, b: GuestbookEntry, c: GuestbookEntry)
    ensures Stored(Add(Add(Add(Fetch(None, t0).0, a), b), c)) == [c, b, a] + Seed(t0)
    ensures |Stored(Add(Add(Add(Fetch(None, t0).0, a), b), c))| == 5
  {
    assert [c] + ([b] + ([a] + Seed(t0))) == [c, b, a] + Seed(t0);
  }

  /** The storage slot and the two service calls that read and write it. */
  class GuestbookStore {
    var slot: Option<seq<GuestbookEntry>>

    /** A store over whatever the slot holds; an empty string counts as absent. */
    constructor (initial: Option<seq<GuestbookEntry>>)
      ensures slot == initial
    {
      slot := initial;
    }

    /** `fetchEntries`, when its timer fires at `now`. */
    method FetchEntries(now: int) returns (entries: seq<GuestbookEntry>)
      modifies this
      ensures (slot, entries) == Fetch(old(slot), now)
    {
      if slot.Some? {
        entries := slot.value;
      } else {
        var seed := Seed(now);
        slot := Some(seed);
        entries := seed;
      }
    }

    /** `addEntry(name, message)`, when its timer fires at `now`; `coin` is `Math.random() > 0.5`. */
    method AddEntry(name: string, message: string, now: int, coin: bool) returns (e: GuestbookEntry)
      modifies this
      ensures e == NewEntry(name, message, now, coin)
      ensures slot == Add(old(slot), e)
      ensures Stored(slot)[0] == e
    {
      var stored := if slot.Some? then slot.value else [];
      e := GuestbookEntry(now, name, message, now, if coin then "#b8bb26" else "#cc241d");
      slot := Some([e] + stored);
    }
  }
}
