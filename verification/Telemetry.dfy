/** Outcome accounting of one delivery and of a whole run (telemetry.go). Spans, attributes other than the
    failure category and the skip reason, and timings are not modelled. */
module Telemetry {
  import opened Basics
  import opened Errors

  datatype Kind = Unset | Processed | Failed | Skipped

  datatype Category = NoCategory | PermanentFailure | RetryableFailure | Deserialization | MaxAttempts | Unknown

  datatype Reason = NoReason | NoHandler | Discarded

  /** The terminal counters keep their label: `failed` by category, `skipped` by reason. */
  datatype Counters = Counters(
    received: nat, processed: nat, failed: multiset<Category>, skipped: multiset<Reason>,
    retries: nat, dlq: nat, dlqFailures: nat, durations: nat)

  const ZERO := Counters(0, 0, multiset{}, multiset{}, 0, 0, 0, 0)

  class Instruments {
    var counters: Counters

    constructor ()
      ensures counters == ZERO
    {
      counters := ZERO;
    }

    method AddReceived()
      modifies this
      ensures counters == old(counters).(received := old(counters.received) + 1)
    {
      counters := counters.(received := counters.received + 1);
    }

    method AddLetter(accepted: bool)
      modifies this
      ensures counters == WithLetter(old(counters), accepted)
    {
      if accepted {
        counters := counters.(dlq := counters.dlq + 1);
      } else {
        counters := counters.(dlqFailures := counters.dlqFailures + 1);
      }
    }

    /** The duration and the one terminal counter of a delivery. */
    method AddTerminal(kind: Kind, category: Category, reason: Reason)
      modifies this
      ensures counters == Ended(old(counters), kind, category, reason)
    {
      counters := counters.(durations := counters.durations + 1);
      match kind {
        case Processed => counters := counters.(processed := counters.processed + 1);
        case Skipped => counters := counters.(skipped := counters.skipped + multiset{reason});
        case Failed => counters := counters.(failed := counters.failed + multiset{category});
        case Unset => counters := counters.(failed := counters.failed + multiset{Unknown});
      }
    }
  }

  function WithLetter(c: Counters, accepted: bool): Counters {
    if accepted then c.(dlq := c.dlq + 1) else c.(dlqFailures := c.dlqFailures + 1)
  }

  /** What the harness's probe reads at the end of a delivery. */
  class Probe {
    var kind: Kind
    var category: Category
    var reason: Reason
    var err: Option<Error>

    constructor ()
    {
      kind, category, reason, err := Unset, NoCategory, NoReason, None;
    }
  }

  /** The outcome a delivery has stated, as the recorder or a probe holds it. */
  datatype Stated = Stated(kind: Kind, category: Category, reason: Reason, err: Option<Error>)

  const UNSTATED := Stated(Unset, NoCategory, NoReason, None)

  function Reading(probe: Probe): Stated
    reads probe
  {
    Stated(probe.kind, probe.category, probe.reason, probe.err)
  }

  /** kindName: an unstated outcome reads as a failure. */
  function KindName(k: Kind): (name: Kind)
    ensures name != Unset && (k != Unset ==> name == k) && (k == Unset ==> name == Failed)
  {
    match k
    case Processed => Processed
    case Skipped => Skipped
    case _ => Failed
  }

  /** The terminal counter of a delivery: one duration and exactly one of processed, skipped, failed. */
  function Ended(c: Counters, kind: Kind, category: Category, reason: Reason): Counters {
    var d := c.(durations := c.durations + 1);
    match kind
    case Processed => d.(processed := c.processed + 1)
    case Skipped => d.(skipped := c.skipped + multiset{reason})
    case Failed => d.(failed := c.failed + multiset{category})
    case Unset => d.(failed := c.failed + multiset{Unknown})
  }

  class DeliveryRecorder {
    const inst: Instruments
    const probe: Probe?
    var kind: Kind
    var category: Category
    var reason: Reason
    var err: Option<Error>
    var ended: bool

    constructor (inst: Instruments, probe: Probe?)
      ensures this.inst == inst && this.probe == probe
      ensures kind.Unset? && category.NoCategory? && reason.NoReason? && err.None? && !ended
    {
      this.inst, this.probe := inst, probe;
      kind, category, reason, err, ended := Unset, NoCategory, NoReason, None, false;
    }

    method SayProcessed()
      modifies `kind
      ensures kind == Processed
    {
      kind := Processed;
    }

    method SayFailed(category: Category, err: Option<Error>)
      modifies `kind, `category, `err
      ensures kind == Failed && this.category == category && this.err == err
    {
      kind, this.category, this.err := Failed, category, err;
    }

    method SaySkipped(reason: Reason)
      modifies `kind, `reason
      ensures kind == Skipped && this.reason == reason
    {
      kind, this.reason := Skipped, reason;
    }

    method Retry()
      modifies inst
      ensures inst.counters == old(inst.counters).(retries := old(inst.counters.retries) + 1)
    {
      inst.counters := inst.counters.(retries := inst.counters.retries + 1);
    }

    /** Idempotent: only the first call records. The probe is filled before an unstated outcome is
        relabelled. */
    method End()
      modifies `ended, `category, inst, probe
      ensures ended
      ensures inst.counters == if old(ended) then old(inst.counters)
                               else Ended(old(inst.counters), kind, old(category), reason)
      ensures category == if !old(ended) && kind.Unset? then Unknown else old(category)
      ensures probe != null ==> Reading(probe) == if old(ended) then old(Reading(probe))
                                                  else Stated(KindName(kind), old(category), reason, err)
    {
      if ended {
        return;
      }
      ended := true;
      if probe != null {
        probe.kind, probe.category, probe.reason, probe.err := KindName(kind), category, reason, err;
      }
      inst.AddTerminal(kind, category, reason);
      if kind.Unset? {
        category := Unknown;
      }
    }
  }

  // ----- conservation over runs -----

  /** One delivery: what it has stated, whether it has ended, whether it wrote its dead letter. What is stated after the
      end is not recorded. */
  datatype Open = Open(kind: Kind, category: Category, reason: Reason, ended: bool, lettered: bool)

  datatype Board = Board(counters: Counters, deliveries: seq<Open>, undecodable: nat)

  /** What the consumer's goroutines may do to the instruments, in any order and interleaving. `UndecodableEntry` is an
      entry the subscriber's hook takes: received, and its dead letter accepted, refused, or not written at all. */
  datatype Event =
    | Receive | StateOutcome(n: nat, kind: Kind, category: Category, reason: Reason) | RetryOnce(n: nat)
    | LetterWritten(n: nat, accepted: bool) | End(n: nat) | UndecodableEntry(written: Option<bool>)

  predicate CanHappen(b: Board, e: Event) {
    match e
    case Receive => true
    case StateOutcome(n, _, _, _) => n < |b.deliveries|
    case RetryOnce(n) => n < |b.deliveries|
    case LetterWritten(n, _) => n < |b.deliveries| && !b.deliveries[n].lettered
    case End(n) => n < |b.deliveries|
    case UndecodableEntry(_) => true
  }

  function Happen(b: Board, e: Event): Board
    requires CanHappen(b, e)
  {
    var c := b.counters;
    match e
    case Receive =>
      b.(counters := c.(received := c.received + 1),
         deliveries := b.deliveries + [Open(Unset, NoCategory, NoReason, false, false)])
    case StateOutcome(n, kind, category, reason) =>
      if b.deliveries[n].ended then b
      else b.(deliveries := b.deliveries[n := b.deliveries[n].(kind := kind, category := category, reason := reason)])
    case RetryOnce(n) => b.(counters := c.(retries := c.retries + 1))
    case LetterWritten(n, accepted) =>
      b.(counters := WithLetter(c, accepted), deliveries := b.deliveries[n := b.deliveries[n].(lettered := true)])
    case End(n) =>
      var d := b.deliveries[n];
      if d.ended then b
      else b.(counters := Ended(c, d.kind, d.category, d.reason), deliveries := b.deliveries[n := d.(ended := true)])
    case UndecodableEntry(written) =>
      var c' := c.(received := c.received + 1);
      b.(counters := if written.Some? then WithLetter(c', written.value) else c', undecodable := b.undecodable + 1)
  }

  function StillOpen(ds: seq<Open>): nat {
    if ds == [] then 0 else StillOpen(ds[..|ds| - 1]) + One(!ds[|ds| - 1].ended)
  }

  function Lettered(ds: seq<Open>): nat {
    if ds == [] then 0 else Lettered(ds[..|ds| - 1]) + One(ds[|ds| - 1].lettered)
  }

  lemma {:induction false} OpenUpdate(ds: seq<Open>, n: nat, d: Open)
    requires n < |ds|
    ensures StillOpen(ds[n := d]) + One(!ds[n].ended) == StillOpen(ds) + One(!d.ended)
    ensures Lettered(ds[n := d]) + One(ds[n].lettered) == Lettered(ds) + One(d.lettered)
  {
    var after := ds[n := d];
    if n == |ds| - 1 {
      assert after[..|ds| - 1] == ds[..|ds| - 1];
    } else {
      assert after[..|ds| - 1] == ds[..|ds| - 1][n := d];
      OpenUpdate(ds[..|ds| - 1], n, d);
    }
  }

  lemma OpenGrow(ds: seq<Open>, d: Open)
    ensures StillOpen(ds + [d]) == StillOpen(ds) + One(!d.ended)
    ensures Lettered(ds + [d]) == Lettered(ds) + One(d.lettered)
  {
    assert (ds + [d])[..|ds|] == ds;
  }

  lemma {:induction false} LetteredAtMostAll(ds: seq<Open>)
    ensures Lettered(ds) <= |ds|
  {
    if ds != [] {
      LetteredAtMostAll(ds[..|ds| - 1]);
    }
  }

  /** Every entry taken off a stream is accounted for. */
  predicate Conserved(b: Board) {
    var c := b.counters;
    && c.received == c.processed + |c.failed| + |c.skipped| + StillOpen(b.deliveries) + b.undecodable
    && c.durations == c.processed + |c.failed| + |c.skipped|
    && c.received == |b.deliveries| + b.undecodable
    && c.dlq + c.dlqFailures <= Lettered(b.deliveries) + b.undecodable
  }

  /** Exactly one terminal counter and one duration. */
  lemma EndedAddsOne(c: Counters, kind: Kind, category: Category, reason: Reason)
    ensures var d := Ended(c, kind, category, reason);
            && d.processed + |d.failed| + |d.skipped| == c.processed + |c.failed| + |c.skipped| + 1
            && d.durations == c.durations + 1
            && d == c.(durations := d.durations, processed := d.processed, failed := d.failed, skipped := d.skipped)
  {
  }

  lemma EndConserves(b: Board, n: nat)
    requires Conserved(b) && n < |b.deliveries|
    ensures Conserved(Happen(b, End(n)))
  {
    var d := b.deliveries[n];
    EndedAddsOne(b.counters, d.kind, d.category, d.reason);
    OpenUpdate(b.deliveries, n, d.(ended := true));
  }

  lemma HappenConserves(b: Board, e: Event)
    requires Conserved(b) && CanHappen(b, e)
    ensures Conserved(Happen(b, e))
  {
    match e
    case Receive => OpenGrow(b.deliveries, Open(Unset, NoCategory, NoReason, false, false));
    case StateOutcome(n, kind, category, reason) =>
      OpenUpdate(b.deliveries, n, b.deliveries[n].(kind := kind, category := category, reason := reason));
    case LetterWritten(n, _) => OpenUpdate(b.deliveries, n, b.deliveries[n].(lettered := true));
    case End(n) => EndConserves(b, n);
    case _ =>
  }

  ghost predicate IsHistory(boards: seq<Board>, events: seq<Event>) {
    && |boards| == |events| + 1
    && boards[0] == Board(ZERO, [], 0)
    && forall i {:trigger events[i]} :: 0 <= i < |events| ==>
         CanHappen(boards[i], events[i]) && boards[i + 1] == Happen(boards[i], events[i])
  }

  /** Over every run, however often `end` runs for a delivery: received = processed + failed + skipped +
      deliveries still open + undecodable entries; one duration per terminal counter; and no more dead
      letters than entries received. */
  lemma {:induction false} MetricsConserved(boards: seq<Board>, events: seq<Event>, i: nat)
    requires IsHistory(boards, events) && i < |boards|
    ensures Conserved(boards[i])
    ensures boards[i].counters.dlq <= boards[i].counters.received
  {
    if i > 0 {
      MetricsConserved(boards, events, i - 1);
      assert CanHappen(boards[i - 1], events[i - 1]);
      HappenConserves(boards[i - 1], events[i - 1]);
    }
    LetteredAtMostAll(boards[i].deliveries);
  }

  // ----- what each counter counts -----

  /** Deliveries that ended with outcome `kind`, of category `category` when failed and for `reason` when skipped; one
      that stated nothing counts as failed for an unknown category. */
  predicate EndedAs(d: Open, kind: Kind, category: Category, reason: Reason) {
    d.ended && match kind
               case Processed => d.kind.Processed?
               case Skipped => d.kind.Skipped? && d.reason == reason
               case _ => (d.kind.Failed? && d.category == category) || (d.kind.Unset? && category.Unknown?)
  }

  function Tally(ds: seq<Open>, kind: Kind, category: Category, reason: Reason): nat {
    if ds == [] then 0 else Tally(ds[..|ds| - 1], kind, category, reason) + One(EndedAs(ds[|ds| - 1], kind, category, reason))
  }

  datatype Happening = Arrival | Retrial | LetterTaken | LetterRefused

  predicate Is(e: Event, what: Happening) {
    match what
    case Arrival => e.Receive? || e.UndecodableEntry?
    case Retrial => e.RetryOnce?
    case LetterTaken => (e.LetterWritten? && e.accepted) || e == UndecodableEntry(Some(true))
    case LetterRefused => (e.LetterWritten? && !e.accepted) || e == UndecodableEntry(Some(false))
  }

  /** How often it happened among the first `n` events. */
  function Times(events: seq<Event>, n: nat, what: Happening): nat
    requires n <= |events|
  {
    if n == 0 then 0 else Times(events, n - 1, what) + One(Is(events[n - 1], what))
  }

  predicate TerminalsMatch(b: Board, category: Category, reason: Reason) {
    && b.counters.processed == Tally(b.deliveries, Processed, category, reason)
    && b.counters.skipped[reason] == Tally(b.deliveries, Skipped, category, reason)
    && b.counters.failed[category] == Tally(b.deliveries, Failed, category, reason)
  }

  lemma {:induction false} TallyUpdate(ds: seq<Open>, n: nat, d: Open, kind: Kind, category: Category, reason: Reason)
    requires n < |ds|
    ensures Tally(ds[n := d], kind, category, reason) + One(EndedAs(ds[n], kind, category, reason))
         == Tally(ds, kind, category, reason) + One(EndedAs(d, kind, category, reason))
  {
    var after := ds[n := d];
    if n == |ds| - 1 {
      assert after[..|ds| - 1] == ds[..|ds| - 1];
    } else {
      assert after[..|ds| - 1] == ds[..|ds| - 1][n := d];
      TallyUpdate(ds[..|ds| - 1], n, d, kind, category, reason);
    }
  }

  /** Changing a delivery that has not ended, and leaves it so, changes no tally. */
  lemma TallySame(b: Board, next: Board, n: nat, d: Open, category: Category, reason: Reason)
    requires TerminalsMatch(b, category, reason) && n < |b.deliveries|
    requires d == b.deliveries[n].(kind := d.kind, category := d.category, reason := d.reason, lettered := d.lettered)
    requires b.deliveries[n].ended ==> d == b.deliveries[n].(lettered := d.lettered)
    requires next.deliveries == b.deliveries[n := d] && next.counters.processed == b.counters.processed
    requires next.counters.skipped == b.counters.skipped && next.counters.failed == b.counters.failed
    ensures TerminalsMatch(next, category, reason)
  {
    TallyUpdate(b.deliveries, n, d, Processed, category, reason);
    TallyUpdate(b.deliveries, n, d, Skipped, category, reason);
    TallyUpdate(b.deliveries, n, d, Failed, category, reason);
  }

  /** The terminal counter that moves is the one of the delivery's outcome. */
  lemma EndedCounts(c: Counters, d: Open, category: Category, reason: Reason)
    requires !d.ended
    ensures var next, end := Ended(c, d.kind, d.category, d.reason), d.(ended := true);
            && next.processed == c.processed + One(EndedAs(end, Processed, category, reason))
            && next.skipped[reason] == c.skipped[reason] + One(EndedAs(end, Skipped, category, reason))
            && next.failed[category] == c.failed[category] + One(EndedAs(end, Failed, category, reason))
  {
  }

  lemma EndMatches(b: Board, n: nat, category: Category, reason: Reason)
    requires TerminalsMatch(b, category, reason) && n < |b.deliveries|
    ensures TerminalsMatch(Happen(b, End(n)), category, reason)
  {
    var d := b.deliveries[n];
    if !d.ended {
      EndedCounts(b.counters, d, category, reason);
      TallyUpdate(b.deliveries, n, d.(ended := true), Processed, category, reason);
      TallyUpdate(b.deliveries, n, d.(ended := true), Skipped, category, reason);
      TallyUpdate(b.deliveries, n, d.(ended := true), Failed, category, reason);
    }
  }

  lemma StateMatches(b: Board, e: Event, category: Category, reason: Reason)
    requires TerminalsMatch(b, category, reason) && CanHappen(b, e) && (e.StateOutcome? || e.LetterWritten?)
    ensures TerminalsMatch(Happen(b, e), category, reason)
  {
    var d := Happen(b, e).deliveries[e.n];
    assert Happen(b, e).deliveries == b.deliveries[e.n := d];
    TallySame(b, Happen(b, e), e.n, d, category, reason);
  }

  lemma HappenMatches(b: Board, e: Event, category: Category, reason: Reason)
    requires TerminalsMatch(b, category, reason) && CanHappen(b, e)
    ensures TerminalsMatch(Happen(b, e), category, reason)
  {
    match e
    case Receive => assert Happen(b, e).deliveries[..|b.deliveries|] == b.deliveries;
    case StateOutcome(_, _, _, _) => StateMatches(b, e, category, reason);
    case LetterWritten(_, _) => StateMatches(b, e, category, reason);
    case End(n) => EndMatches(b, n, category, reason);
    case _ =>
  }

  /** Over every run: `processed` counts the deliveries that ended processed, `skipped` those skipped for each reason,
      `failed` those failed for each category, with the unstated ones as Unknown. */
  lemma {:induction false} TerminalsCount(boards: seq<Board>, events: seq<Event>, i: nat, category: Category, reason: Reason)
    requires IsHistory(boards, events) && i < |boards|
    ensures TerminalsMatch(boards[i], category, reason)
  {
    if i > 0 {
      TerminalsCount(boards, events, i - 1, category, reason);
      assert CanHappen(boards[i - 1], events[i - 1]);
      HappenMatches(boards[i - 1], events[i - 1], category, reason);
    }
  }

  lemma HappenCounts(b: Board, e: Event)
    requires CanHappen(b, e)
    ensures var c, next := b.counters, Happen(b, e).counters;
            && next.received == c.received + One(Is(e, Arrival)) && next.retries == c.retries + One(Is(e, Retrial))
            && next.dlq == c.dlq + One(Is(e, LetterTaken)) && next.dlqFailures == c.dlqFailures + One(Is(e, LetterRefused))
  {
  }

  /** Over every run: the other counters count the events of their name. */
  lemma {:induction false} EventsCount(boards: seq<Board>, events: seq<Event>, i: nat)
    requires IsHistory(boards, events) && i < |boards|
    ensures var c := boards[i].counters;
            && c.received == Times(events, i, Arrival) && c.retries == Times(events, i, Retrial)
            && c.dlq == Times(events, i, LetterTaken) && c.dlqFailures == Times(events, i, LetterRefused)
  {
    if i > 0 {
      EventsCount(boards, events, i - 1);
      assert CanHappen(boards[i - 1], events[i - 1]);
      HappenCounts(boards[i - 1], events[i - 1]);
    }
  }
}
