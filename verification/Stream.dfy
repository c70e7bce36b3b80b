/** The live window stream (internal/flow/stream.go) and its refinement of batch aggregation. */
module Streams {
  import opened FlowTypes
  import opened Lists
  import opened Windows
  import opened Aggregation

  datatype Config = Config(size: int, lateness: int, maxWindows: int)

  const DEFAULT_MAX_WINDOWS := 16384

  predicate ValidConfig(c: Config) {
    c.size > 0 && c.lateness >= 0 && c.maxWindows > 0
  }

  datatype Verdict = Accepted | StreamClosed | ObservationTimeRequired | LateObservation | WindowCapacity

  datatype State = State(windows: Table, watermark: Time, hasWatermark: bool, finished: bool)

  const EMPTY_STREAM := State(map[], 0, false, false)

  /** The observation's bucket ends no later than the watermark. */
  predicate IsLate(c: Config, s: State, o: Observation)
    requires ValidConfig(c)
  {
    s.hasWatermark && KeyFor(o, c.size).start + c.size <= s.watermark
  }

  function Judge(c: Config, s: State, o: Observation): Verdict
    requires ValidConfig(c)
  {
    if s.finished then StreamClosed
    else if o.observedAt == 0 then ObservationTimeRequired
    else if IsLate(c, s, o) then LateObservation
    else if KeyFor(o, c.size) !in s.windows && |s.windows| >= c.maxWindows then WindowCapacity
    else Accepted
  }

  function AfterAdd(c: Config, s: State, o: Observation): State
    requires ValidConfig(c)
  {
    if Judge(c, s, o).Accepted? then s.(windows := Put(s.windows, o, c.size)) else s
  }

  /** The watermark never goes back. */
  function Raised(c: Config, s: State, now: Time): State {
    var w := now - c.lateness;
    if !s.hasWatermark || w > s.watermark then s.(watermark := w, hasWatermark := true) else s
  }

  function EndsBy(mark: Time): Window -> bool {
    (w: Window) => w.id.windowEnd <= mark
  }

  /** The windows a flush finalizes, and those it keeps. */
  function Due(s: State): Table {
    Where(s.windows, EndsBy(s.watermark))
  }

  function Kept(s: State): Table {
    Others(s.windows, EndsBy(s.watermark))
  }

  function AfterFlush(c: Config, s: State, now: Time): State {
    var r := Raised(c, s, now);
    r.(windows := Kept(r))
  }

  function MarkPartial(w: Window): Window {
    w.(isPartial := true)
  }

  /** Everything Finish emits: due windows as they are, the others marked partial. */
  function Final(c: Config, s: State, now: Time): Table {
    if s.finished then map[]
    else
      var r := Raised(c, s, now);
      Due(r) + MappedValues(MarkPartial, Kept(r))
  }

  function AfterFinish(c: Config, s: State, now: Time): State {
    if s.finished then s else Raised(c, s, now).(windows := map[], finished := true)
  }

  // ---------- Runs ----------

  datatype Op = Offer(o: Observation) | Tick(now: Time)

  /** A run so far: state, the observations accepted, and what each flush emitted. */
  datatype History = History(state: State, accepted: seq<Observation>, rounds: seq<Table>)

  function Step(c: Config, h: History, op: Op): History
    requires ValidConfig(c)
  {
    match op
    case Offer(o) =>
      History(AfterAdd(c, h.state, o),
              if Judge(c, h.state, o).Accepted? then h.accepted + [o] else h.accepted, h.rounds)
    case Tick(now) =>
      History(AfterFlush(c, h.state, now), h.accepted, h.rounds + [Due(Raised(c, h.state, now))])
  }

  function Run(c: Config, ops: seq<Op>): History
    requires ValidConfig(c)
  {
    if ops == [] then History(EMPTY_STREAM, [], [])
    else Step(c, Run(c, ops[..|ops| - 1]), ops[|ops| - 1])
  }

  function Union(rounds: seq<Table>): Table {
    if rounds == [] then map[] else Union(rounds[..|rounds| - 1]) + rounds[|rounds| - 1]
  }

  /** No key occurs in two rounds. */
  predicate Disjoint(rounds: seq<Table>) {
    rounds == [] ||
    (Disjoint(rounds[..|rounds| - 1]) && Union(rounds[..|rounds| - 1]).Keys !! rounds[|rounds| - 1].Keys)
  }

  /** All windows are whole and carry the identity of their key. */
  ghost predicate Whole(m: Table, size: int) {
    forall k :: k in m ==> m[k].id == IdentityOf(k, size) && !m[k].isPartial
  }

  ghost predicate Closed(c: Config, u: Table, s: State) {
    forall k :: k in u ==> s.hasWatermark && k.start + c.size <= s.watermark
  }

  ghost predicate Inv(c: Config, h: History)
    requires ValidConfig(c)
  {
    && Disjoint(h.rounds)
    && Shares(Union(h.rounds), h.state.windows, TableOf(h.accepted, c.size))
    && Whole(TableOf(h.accepted, c.size), c.size)
    && |h.state.windows| <= c.maxWindows
    && Closed(c, Union(h.rounds), h.state)
    && !h.state.finished
  }

  lemma AcceptKeeps(c: Config, h: History, o: Observation)
    requires ValidConfig(c) && Inv(c, h) && Judge(c, h.state, o).Accepted?
    ensures Inv(c, History(h.state.(windows := Put(h.state.windows, o, c.size)), h.accepted + [o], h.rounds))
  {
    var t := TableOf(h.accepted, c.size);
    NotClosed(c, Union(h.rounds), h.state, KeyFor(o, c.size));
    PutShared(Union(h.rounds), h.state.windows, t, o, c.size);
    WholePut(t, o, c.size);
    TableSnoc(h.accepted, o, c.size);
  }

  lemma OfferKeeps(c: Config, h: History, o: Observation)
    requires ValidConfig(c) && Inv(c, h)
    ensures Inv(c, Step(c, h, Offer(o)))
  {
    if Judge(c, h.state, o).Accepted? {
      AcceptKeeps(c, h, o);
    }
  }

  lemma PutShared(u: Table, w: Table, t: Table, o: Observation, size: int)
    requires size > 0 && Shares(u, w, t) && KeyFor(o, size) !in u
    ensures Shares(u, Put(w, o, size), Put(t, o, size))
    ensures |Put(w, o, size)| == if KeyFor(o, size) in w then |w| else |w| + 1
  {
    var k := KeyFor(o, size);
    assert Joined(w, k, o, size) == Joined(t, k, o, size);
    UpdateShared(u, w, t, k, Joined(w, k, o, size));
  }

  lemma NotClosed(c: Config, u: Table, s: State, k: Key)
    requires Closed(c, u, s) && !(s.hasWatermark && k.start + c.size <= s.watermark)
    ensures k !in u
  {
  }

  lemma WholePut(t: Table, o: Observation, size: int)
    requires size > 0 && Whole(t, size)
    ensures Whole(Put(t, o, size), size)
  {
  }

  lemma UnionSnoc(rounds: seq<Table>, m: Table)
    ensures Union(rounds + [m]) == Union(rounds) + m
    ensures Disjoint(rounds + [m]) <==> Disjoint(rounds) && Union(rounds).Keys !! m.Keys
  {
    assert (rounds + [m])[..|rounds|] == rounds;
  }

  lemma ClosedUnion(c: Config, u: Table, s: State, r: State, due: Table)
    requires Closed(c, u, s) && Whole(r.windows, c.size)
    requires s.hasWatermark ==> s.watermark <= r.watermark
    requires r.hasWatermark && due == Where(r.windows, EndsBy(r.watermark))
    ensures Closed(c, u + due, r)
  {
  }

  lemma TickKeeps(c: Config, h: History, now: Time)
    requires ValidConfig(c) && Inv(c, h)
    ensures Inv(c, Step(c, h, Tick(now)))
  {
    var u, r := Union(h.rounds), Raised(c, h.state, now);
    var p := EndsBy(r.watermark);
    UnionSnoc(h.rounds, Where(r.windows, p));
    MoveShared(u, r.windows, TableOf(h.accepted, c.size), p);
    ClosedUnion(c, u, h.state, r, Where(r.windows, p));
  }

  /** The invariant holds after every run. */
  lemma {:induction false} RunKeeps(c: Config, ops: seq<Op>)
    requires ValidConfig(c)
    ensures Inv(c, Run(c, ops))
    decreases |ops|
  {
    if ops != [] {
      RunKeeps(c, ops[..|ops| - 1]);
      var h := Run(c, ops[..|ops| - 1]);
      match ops[|ops| - 1]
      case Offer(o) => OfferKeeps(c, h, o);
      case Tick(now) => TickKeeps(c, h, now);
    }
  }

  function Erased(w: Window): Window {
    w.(isPartial := false)
  }

  function EraseAll(m: Table): Table {
    MappedValues(Erased, m)
  }

  /** A finished run emitted, key by key and up to the partial mark, the batch aggregate of exactly
      the accepted observations, no key twice, and it never held more windows than allowed. */
  lemma StreamRefinesBatch(c: Config, ops: seq<Op>, now: Time)
    requires ValidConfig(c)
    ensures var h := Run(c, ops);
            var rounds := h.rounds + [Final(c, h.state, now)];
            Disjoint(rounds) && EraseAll(Union(rounds)) == TableOf(h.accepted, c.size) && |h.state.windows| <= c.maxWindows
  {
    RunKeeps(c, ops);
    var h := Run(c, ops);
    var r, t := Raised(c, h.state, now), TableOf(h.accepted, c.size);
    UnionSnoc(h.rounds, Final(c, h.state, now));
    WholeErases(t, c.size);
    EraseShared(Union(h.rounds), h.state.windows, t, EndsBy(r.watermark), MarkPartial, Erased);
  }

  lemma WholeErases(t: Table, size: int)
    requires Whole(t, size)
    ensures forall k :: k in t ==> Erased(t[k]) == t[k] && Erased(MarkPartial(t[k])) == t[k]
  {
    forall k | k in t ensures Erased(t[k]) == t[k] && Erased(MarkPartial(t[k])) == t[k] {
      assert !t[k].isPartial;
    }
  }

  /** A window is marked partial exactly when Finish emits it before its end has passed. */
  lemma PartialExactly(c: Config, ops: seq<Op>, now: Time)
    requires ValidConfig(c)
    ensures var h := Run(c, ops);
            var last := Final(c, h.state, now);
            && (forall i :: 0 <= i < |h.rounds| ==> Unmarked(h.rounds[i]))
            && (forall k :: k in last ==>
                  (last[k].isPartial <==> last[k].id.windowEnd > AfterFinish(c, h.state, now).watermark))
  {
    RunKeeps(c, ops);
    RoundsAreUnmarked(c, ops);
    OpenIsUnmarked(c, Run(c, ops));
  }

  predicate Unmarked(m: Table) {
    forall k :: k in m ==> !m[k].isPartial
  }

  lemma OpenIsUnmarked(c: Config, h: History)
    requires ValidConfig(c) && Inv(c, h)
    ensures Unmarked(h.state.windows)
  {
    var t := TableOf(h.accepted, c.size);
    forall k | k in h.state.windows ensures !h.state.windows[k].isPartial {
      assert k in t && t[k] == h.state.windows[k];
    }
  }

  lemma {:induction false} RoundsAreUnmarked(c: Config, ops: seq<Op>)
    requires ValidConfig(c)
    ensures forall i :: 0 <= i < |Run(c, ops).rounds| ==> Unmarked(Run(c, ops).rounds[i])
    decreases |ops|
  {
    if ops != [] {
      var h := Run(c, ops[..|ops| - 1]);
      RoundsAreUnmarked(c, ops[..|ops| - 1]);
      RunKeeps(c, ops[..|ops| - 1]);
      OpenIsUnmarked(c, h);
    }
  }

  // ---------- The emitted sequences ----------

  function Concat(outs: seq<seq<Window>>): seq<Window> {
    if outs == [] then [] else Concat(outs[..|outs| - 1]) + outs[|outs| - 1]
  }

  /** outs[i] lists what round i emitted. */
  ghost predicate Emitted(outs: seq<seq<Window>>, rounds: seq<Table>) {
    |outs| == |rounds| && forall i :: 0 <= i < |outs| ==> Listing(outs[i], rounds[i])
  }

  lemma {:induction false} RoundsListUnion(outs: seq<seq<Window>>, rounds: seq<Table>)
    requires Emitted(outs, rounds) && Disjoint(rounds)
    ensures Listing(Concat(outs), Union(rounds))
    decreases |outs|
  {
    if outs == [] {
      var none: seq<Key> := [];
      assert Enumerates(none, Union(rounds)) && Look(Union(rounds), none) == [];
    } else {
      var n := |outs| - 1;
      RoundsListUnion(outs[..n], rounds[..n]);
      ListingUnion(Concat(outs[..n]), Union(rounds[..n]), outs[n], rounds[n]);
    }
  }

  /** Whatever order each flush and the finish used: the windows written out, partial marks
      erased, are a permutation of any batch aggregate of the accepted observations. */
  lemma EmittedIsPermutationOfBatch(c: Config, ops: seq<Op>, now: Time, outs: seq<seq<Window>>, batch: seq<Window>)
    requires ValidConfig(c)
    requires Emitted(outs, Run(c, ops).rounds + [Final(c, Run(c, ops).state, now)])
    requires IsAggregate(batch, Run(c, ops).accepted, c.size)
    ensures multiset(Mapped(Erased, Concat(outs))) == multiset(batch)
  {
    var h := Run(c, ops);
    var rounds := h.rounds + [Final(c, h.state, now)];
    StreamRefinesBatch(c, ops, now);
    RoundsListUnion(outs, rounds);
    ListingMapped(Erased, Concat(outs), Union(rounds));
    ListingsAgree(Mapped(Erased, Concat(outs)), batch, TableOf(h.accepted, c.size));
  }

  // ---------- The stream object ----------

  class Stream {
    const config: Config
    var windows: Table
    var watermark: Time
    var hasWatermark: bool
    var finished: bool

    /** NewStream, after its configuration was accepted. */
    constructor (config: Config)
      requires config.size > 0 && config.lateness >= 0 && config.maxWindows >= 0
      ensures ValidConfig(this.config) && View() == EMPTY_STREAM
      ensures this.config == config.(maxWindows := if config.maxWindows == 0 then DEFAULT_MAX_WINDOWS else config.maxWindows)
    {
      this.config := config.(maxWindows := if config.maxWindows == 0 then DEFAULT_MAX_WINDOWS else config.maxWindows);
      windows, watermark, hasWatermark, finished := map[], 0, false, false;
    }

    ghost function View(): State
      reads this
    {
      State(windows, watermark, hasWatermark, finished)
    }

    method Add(o: Observation) returns (verdict: Verdict)
      requires ValidConfig(config)
      modifies this
      ensures verdict == Judge(config, old(View()), o)
      ensures View() == AfterAdd(config, old(View()), o)
    {
      if finished {
        return StreamClosed;
      }
      if o.observedAt == 0 {
        return ObservationTimeRequired;
      }
      var key := KeyFor(o, config.size);
      if hasWatermark && key.start + config.size <= watermark {
        return LateObservation;
      }
      if key !in windows {
        if |windows| >= config.maxWindows {
          return WindowCapacity;
        }
        windows := windows[key := NewWindow(key, config.size)];
      }
      windows := windows[key := AddTo(windows[key], o)];
      return Accepted;
    }

    method RaiseWatermark(now: Time)
      modifies this
      ensures View() == Raised(config, old(View()), now)
    {
      var mark := now - config.lateness;
      if !hasWatermark || mark > watermark {
        watermark, hasWatermark := mark, true;
      }
    }

    method Flush(now: Time) returns (ws: seq<Window>)
      requires ValidConfig(config)
      modifies this
      ensures Listing(ws, Due(Raised(config, old(View()), now))) && Sorted(ws, Less)
      ensures View() == AfterFlush(config, old(View()), now)
    {
      RaiseWatermark(now);
      ghost var r := View();
      var due, kept := Partition(windows, EndsBy(watermark));
      windows := kept;
      ws := ListMap(due);
      ws := SortAny(ws, Due(r));
      assert View() == r.(windows := Kept(r));
    }

    method Finish(now: Time) returns (ws: seq<Window>)
      requires ValidConfig(config)
      modifies this
      ensures Listing(ws, Final(config, old(View()), now)) && Sorted(ws, Less)
      ensures View() == AfterFinish(config, old(View()), now)
    {
      if finished {
        ws := [];
        ListingOfNothing();
        return;
      }
      var due := Flush(now);
      var partials := MappedValues(MarkPartial, windows);
      var rest := ListMap(partials);
      ghost var r := Raised(config, old(View()), now);
      assert Due(r).Keys !! partials.Keys;
      ListingUnion(due, Due(r), rest, partials);
      windows, finished := map[], true;
      ws := SortAny(due + rest, Due(r) + partials);
    }
  }

  lemma ListingOfNothing()
    ensures var empty: Table := map[]; Listing([], empty)
  {
    var none: seq<Key>, empty: Table := [], map[];
    assert Enumerates(none, empty) && Look(empty, none) == [];
  }

  /** Sorting keeps a listing a listing. */
  method SortAny(ws: seq<Window>, ghost m: Table) returns (r: seq<Window>)
    requires Listing(ws, m)
    ensures Listing(r, m) && Sorted(r, Less)
  {
    r := SortWindows(ws);
    ghost var keys :| Enumerates(keys, m) && multiset(ws) == multiset(Look(m, keys));
    assert multiset(r) == multiset(Look(m, keys));
  }
}
