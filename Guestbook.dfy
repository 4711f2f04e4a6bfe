/**
 * The guestbook section (components/Guestbook.tsx): the list loaded on mount,
 * a two-field form whose submit calls the service and then shows its own
 * copy of the entry first, and the `loading` and `status` flags. A submit
 * runs in two steps: up to the `await` (guard, `status` LOADING, the call
 * made with the form as it was rendered) and after it (local prepend, form
 * reset, SUCCESS). The later reset of `status` to IDLE is a step of its own.
 */
module Guestbook {
  import opened Types
  import opened GuestbookService
  import Text

  /** A submit waiting for `addEntry`: the form and the list as its closure captured them. */
  datatype Submission = Submission(name: string, message: string, entries: seq<GuestbookEntry>)

  /** The component's state; `inFlight` holds the awaiting submits, oldest first. */
  datatype GuestbookState = GuestbookState(
    entries: seq<GuestbookEntry>,
    loading: LoadingState,
    name: string,
    message: string,
    status: LoadingState,
    inFlight: seq<Submission>)

  /** Nothing listed, both flags IDLE, an empty form. */
  const Initial := GuestbookState([], IDLE, "", "", IDLE, [])

  /** The mount effect, up to the fetch; it runs once, on a section not yet mounted. */
  function Mounted(s: GuestbookState): GuestbookState
    requires s.loading == IDLE
  {
    s.(loading := LOADING)
  }

  /** The fetch's continuation, while the fetch is pending: the fetched list replaces the shown one. */
  function Fetched(s: GuestbookState, data: seq<GuestbookEntry>): GuestbookState
    requires s.loading == LOADING
  {
    s.(entries := data, loading := SUCCESS)
  }

  function NameEdited(s: GuestbookState, v: string): GuestbookState {
    s.(name := v)
  }

  function MessageEdited(s: GuestbookState, v: string): GuestbookState {
    s.(message := v)
  }

  /** The guard: both fields must be non-empty; whitespace counts as content. */
  predicate CanSubmit(s: GuestbookState) {
    s.name != "" && s.message != ""
  }

  /** `handleSubmit` up to the `await`: nothing on an empty field, else LOADING and the call. */
  function Submitted(s: GuestbookState): GuestbookState {
    if !CanSubmit(s) then s
    else s.(status := LOADING, inFlight := s.inFlight + [Submission(s.name, s.message, s.entries)])
  }

  /** The component's own copy of a submitted entry, stamped `now`, in white. */
  function LocalEntry(sub: Submission, now: int): GuestbookEntry {
    GuestbookEntry(now, sub.name, sub.message, now, "#ffffff")
  }

  /**
   * `handleSubmit` after the oldest `await` returns at `now`. The mount fetch
   * has returned by then: it was issued before any submit, and both calls wait
   * the same `MOCK_DELAY`.
   */
  function SubmitResolved(s: GuestbookState, now: int): GuestbookState
    requires |s.inFlight| > 0 && s.loading == SUCCESS
  {
    var sub := s.inFlight[0];
    s.(entries := [LocalEntry(sub, now)] + sub.entries, name := "", message := "",
       status := SUCCESS, inFlight := s.inFlight[1..])
  }

  /** The timer two seconds after a submit. */
  function StatusReset(s: GuestbookState): GuestbookState {
    s.(status := IDLE)
  }

  /** The submit button's `disabled`. */
  predicate SubmitDisabled(s: GuestbookState) {
    s.status == LOADING
  }

  /** What every step keeps: no ERROR, and a disabled button means a submit is awaiting. */
  predicate Valid(s: GuestbookState) {
    s.loading != ERROR && s.status != ERROR && (SubmitDisabled(s) ==> |s.inFlight| > 0)
  }

  /** One event the section can receive. */
  datatype Event =
    | Mount
    | FetchDone(data: seq<GuestbookEntry>)
    | NameTyped(name: string)
    | MessageTyped(message: string)
    | SubmitClicked
    | AddDone(now: int)
    | TimerDone

  /**
   * When an event can happen: the mount effect once, the fetch's return while
   * it is pending, a click while the button is enabled, and a submit's return
   * once the fetch has returned.
   */
  predicate Enabled(s: GuestbookState, e: Event) {
    match e
    case Mount => s.loading == IDLE
    case FetchDone(_) => s.loading == LOADING
    case SubmitClicked => !SubmitDisabled(s)
    case AddDone(_) => |s.inFlight| > 0 && s.loading == SUCCESS
    case _ => true
  }

  /** The step an enabled event takes. */
  function Apply(s: GuestbookState, e: Event): GuestbookState
    requires Enabled(s, e)
  {
    match e
    case Mount => Mounted(s)
    case FetchDone(data) => Fetched(s, data)
    case NameTyped(v) => NameEdited(s, v)
    case MessageTyped(v) => MessageEdited(s, v)
    case SubmitClicked => Submitted(s)
    case AddDone(now) => SubmitResolved(s, now)
    case TimerDone => StatusReset(s)
  }

  /** Every event of `es` is enabled in the state the ones before it leave. */
  predicate Possible(s: GuestbookState, es: seq<Event>)
    decreases |es|
  {
    |es| == 0 || (Enabled(s, es[0]) && Possible(Apply(s, es[0]), es[1..]))
  }

  /** Once the fetch has returned it cannot return again. */
  lemma {:induction false} NoFetchAfterSuccess(s: GuestbookState, es: seq<Event>)
    requires s.loading == SUCCESS && Possible(s, es)
    ensures forall j :: 0 <= j < |es| ==> !es[j].FetchDone?
    decreases |es|
  {
    if |es| > 0 {
      NoFetchAfterSuccess(Apply(s, es[0]), es[1..]);
      assert forall j :: 1 <= j < |es| ==> es[j] == es[1..][j - 1];
    }
  }

  /** In every possible run, no return of the mount fetch follows the return of a submit. */
  lemma {:induction false} FetchReturnsFirst(s: GuestbookState, es: seq<Event>)
    requires Possible(s, es)
    ensures forall i, j :: 0 <= i < j < |es| && es[i].AddDone? ==> !es[j].FetchDone?
    decreases |es|
  {
    if |es| > 0 {
      var t := Apply(s, es[0]);
      FetchReturnsFirst(t, es[1..]);
      if es[0].AddDone? {
        NoFetchAfterSuccess(t, es[1..]);
      }
      assert forall j :: 1 <= j < |es| ==> es[j] == es[1..][j - 1];
    }
  }

  /** The mount effect and its fetch: LOADING, then the fetched list and SUCCESS. */
  lemma MountThenFetch(s: GuestbookState, data: seq<GuestbookEntry>)
    requires s.loading == IDLE
    ensures Mounted(s).loading == LOADING
    ensures Fetched(Mounted(s), data) == s.(entries := data, loading := SUCCESS)
  {
  }

  /** An empty name or message leaves everything as it was and calls nothing. */
  lemma EmptyFieldRejected(s: GuestbookState)
    requires s.name == "" || s.message == ""
    ensures Submitted(s) == s
  {
  }

  /** A valid submit sets LOADING and makes exactly one call, with the form as typed. */
  lemma ValidSubmitCallsOnce(s: GuestbookState)
    requires CanSubmit(s)
    ensures Submitted(s).status == LOADING
    ensures |Submitted(s).inFlight| == |s.inFlight| + 1
    ensures Submitted(s).inFlight[|s.inFlight|] == Submission(s.name, s.message, s.entries)
    ensures Submitted(s).inFlight[..|s.inFlight|] == s.inFlight
    ensures Submitted(s).entries == s.entries && Submitted(s).name == s.name && Submitted(s).message == s.message
    ensures Submitted(s).loading == s.loading
  {
    assert Submitted(s).inFlight[..|s.inFlight|] == s.inFlight;
  }

  /** A form of whitespace only passes the guard, though it trims to nothing. */
  lemma WhitespaceAccepted(s: GuestbookState)
    requires |s.name| > 0 && forall k :: 0 <= k < |s.name| ==> Text.IsSpace(s.name[k])
    requires |s.message| > 0 && forall k :: 0 <= k < |s.message| ==> Text.IsSpace(s.message[k])
    ensures Submitted(s).status == LOADING
    ensures Text.Trim(s.name) == "" && Text.Trim(s.message) == ""
  {
    Text.TrimEmptyIffBlank(s.name);
    Text.TrimEmptyIffBlank(s.message);
  }

  /**
   * A submit on its own, from a state where nothing is awaiting: the list
   * gains the local copy in front, the form is emptied and the status is
   * SUCCESS; the local copy carries the typed name and message in white.
   */
  lemma SubmitRoundTrip(s: GuestbookState, now: int)
    requires CanSubmit(s) && s.inFlight == [] && s.loading == SUCCESS
    ensures var t := SubmitResolved(Submitted(s), now);
      && t.entries == [GuestbookEntry(now, s.name, s.message, now, "#ffffff")] + s.entries
      && t.name == "" && t.message == ""
      && t.status == SUCCESS && t.inFlight == []
      && t.loading == s.loading
  {
    ValidSubmitCallsOnce(s);
    assert Submitted(s).inFlight == [Submission(s.name, s.message, s.entries)];
  }

  /** Every step keeps the invariant. */
  lemma StepsKeepValid(s: GuestbookState, e: Event)
    requires Valid(s) && Enabled(s, e)
    ensures Valid(Apply(s, e))
  {
  }

  /**
   * The converse does not hold: the reset timer of an earlier submit can fire
   * while a later one is awaiting, enabling the button with a call in flight.
   */
  lemma ResetWhileAwaiting(s: GuestbookState)
    requires Valid(s) && s.status == SUCCESS && s.inFlight == [] && CanSubmit(s)
    ensures var t := StatusReset(Submitted(s));
      |t.inFlight| == 1 && !SubmitDisabled(t) && Valid(t)
  {
  }

  /**
   * Once that reset has enabled the button, a second submit captures the list
   * without the first's local copy, so when both have returned the list shows
   * the second entry alone in front of the old ones.
   */
  lemma OverlappingSubmitsKeepLastCopy(s: GuestbookState, n2: string, m2: string, t1: int, t2: int)
    requires CanSubmit(s) && s.inFlight == [] && s.loading == SUCCESS && n2 != "" && m2 != ""
    ensures var enabled := StatusReset(Submitted(s));
      var u := SubmitResolved(SubmitResolved(Submitted(enabled.(name := n2, message := m2)), t1), t2);
      !SubmitDisabled(enabled) && u.entries == [GuestbookEntry(t2, n2, m2, t2, "#ffffff")] + s.entries
  {
    var a := StatusReset(Submitted(s));
    assert a.inFlight == [Submission(s.name, s.message, s.entries)];
    var b := Submitted(a.(name := n2, message := m2));
    assert b.inFlight == [Submission(s.name, s.message, s.entries), Submission(n2, m2, s.entries)];
    var c := SubmitResolved(b, t1);
    assert c.inFlight == [Submission(n2, m2, s.entries)];
  }

  /**
   * A submit made before the mount fetch returns captured the list as it was,
   * so its return writes the local copy over the fetched entries.
   */
  lemma SubmitDuringFetchDropsFetched(s: GuestbookState, data: seq<GuestbookEntry>, now: int)
    requires CanSubmit(s) && s.inFlight == [] && s.loading == LOADING
    ensures SubmitResolved(Fetched(Submitted(s), data), now).entries
      == [GuestbookEntry(now, s.name, s.message, now, "#ffffff")] + s.entries
    ensures !SubmitDisabled(s) ==> Possible(s, [SubmitClicked, FetchDone(data), AddDone(now)])
  {
    var a := Submitted(s);
    assert a.inFlight == [Submission(s.name, s.message, s.entries)];
    var b := Fetched(a, data);
    assert [SubmitClicked, FetchDone(data), AddDone(now)][1..] == [FetchDone(data), AddDone(now)];
    assert [FetchDone(data), AddDone(now)][1..] == [AddDone(now)];
    assert Possible(b, [AddDone(now)]) by {
      assert Possible(SubmitResolved(b, now), [AddDone(now)][1..]);
    }
    assert Possible(a, [FetchDone(data), AddDone(now)]);
  }

  /** The section's state fields and its handlers. */
  class GuestbookView {
    var entries: seq<GuestbookEntry>
    var loading: LoadingState
    var name: string
    var message: string
    var status: LoadingState
    var inFlight: seq<Submission>

    function State(): GuestbookState
      reads this
    {
      GuestbookState(entries, loading, name, message, status, inFlight)
    }

    constructor ()
      ensures State() == Initial && Valid(State())
    {
      entries, loading, name, message, status, inFlight := [], IDLE, "", "", IDLE, [];
    }

    /** The mount effect: `loading` becomes LOADING and the fetch starts. */
    method Mount()
      requires loading == IDLE
      modifies this
      ensures State() == Mounted(old(State()))
    {
      loading := LOADING;
    }

    /** The fetch returns at `now`: read (or seed) the store and show its entries. */
    method FetchReturned(store: GuestbookStore, now: int)
      requires loading == LOADING
      modifies this, store
      ensures (store.slot, entries) == Fetch(old(store.slot), now)
      ensures State() == Fetched(old(State()), entries)
    {
      var data := store.FetchEntries(now);
      entries := data;
      loading := SUCCESS;
    }

    method NameChanged(v: string)
      modifies this
      ensures State() == NameEdited(old(State()), v)
    {
      name := v;
    }

    method MessageChanged(v: string)
      modifies this
      ensures State() == MessageEdited(old(State()), v)
    {
      message := v;
    }

    /**
     * `handleSubmit` up to the `await`; `called` says whether `addEntry` was
     * called. The form submits only while its button is enabled.
     */
    method Submit() returns (called: bool)
      requires !SubmitDisabled(State())
      modifies this
      ensures State() == Submitted(old(State()))
      ensures called <==> CanSubmit(old(State()))
    {
      if name == "" || message == "" {
        return false;
      }
      status := LOADING;
      inFlight := inFlight + [Submission(name, message, entries)];
      called := true;
    }

    /**
     * The oldest awaiting `addEntry` runs its timer at `storeNow` with the coin
     * `coin`, and `handleSubmit` resumes at `localNow`.
     */
    method AddEntryReturned(store: GuestbookStore, storeNow: int, coin: bool, localNow: int)
      returns (stored: GuestbookEntry)
      requires |inFlight| > 0 && loading == SUCCESS
      modifies this, store
      ensures stored == NewEntry(old(inFlight[0]).name, old(inFlight[0]).message, storeNow, coin)
      ensures store.slot == Add(old(store.slot), stored)
      ensures State() == SubmitResolved(old(State()), localNow)
    {
      var sub := inFlight[0];
      stored := store.AddEntry(sub.name, sub.message, storeNow, coin);
      entries := [GuestbookEntry(localNow, sub.name, sub.message, localNow, "#ffffff")] + sub.entries;
      name, message := "", "";
      status := SUCCESS;
      inFlight := inFlight[1..];
    }

    /** The reset timer fires. */
    method StatusTimerFired()
      modifies this
      ensures State() == StatusReset(old(State()))
    {
      status := IDLE;
    }
  }
}
