/** Why `EngineCoherence` asks what it asks: a node that changes a resource and
    then reports an error, or that does not declare the change, leaves a stale
    entry behind, and a later hit returns it. */
module StaleHits {
  import opened Wrappers
  import opened Json
  import opened Plans
  import opened Locks
  import opened Stores
  import opened Calls
  import opened Semantics
  import opened Scheduling
  import opened History
  import opened Caches
  import opened EngineCoherence

  /** Reads "r", whatever is asked. */
  const Read := C.Calling((key: CacheKey, store: Store) => if "r" in store then store["r"] else Null, key => {"r"})

  const Key := CacheKey("adapter", "get", None, "null")

  const Before: Store := map["r" := Bool(true)]
  const After: Store := map["r" := Bool(false)]

  const Putter := Node("w", "put", Null, [], None, None)
  const Getter := Node("q", "get", Null, [], None, None)

  const Nobody := Host(Executor((tool, input) => Ok(Null), (tool, inputs) => Ok([])), {}, (tool, input) => true)

  /** The writer, with a lock that lets it write "r", and a reader. */
  function Two(lock: LockRequest): Config {
    Config(
      Program(Nobody, map[], map["w" := Putter, "q" := Getter],
              [Semantics.Unit(["w"], "put", false, lock, 0), Semantics.Unit(["q"], "get", false, Reader, 0)],
              map["w" := 0, "q" := 1]),
      [{}, {}], [{}, {}], [0, 0], map[], None, false, false)
  }

  const Reader := LockRequest({"r"}, {}, None, false)

  function Stale(lock: LockRequest, effects: map<NodeId, ResolvedEffects>, recorded: Assignment): Setting {
    Setting(Read, Two(lock), u => u == 1, effects, recorded, 10)
  }

  /** The writer runs, changes "r" and is finished; then the reader looks "r" up. */
  const Moves: seq<Move> := [
    Engine(Started(0)), EngineCoherence.Write("w", After), Engine(Ended(0)), Engine(Finished(0)),
    Engine(Started(1)), EngineCoherence.Unit(C.Hit(1, Key))]

  const Cached := [Item(Key, Bool(true), {"r"})]

  function At(lock: LockRequest, i: nat): C.State {
    var writer, reader := C.Holder(lock, false), C.Holder(Reader, true);
    if i == 0 then C.State(Before, Cached, map[], None, map[], {})
    else if i == 1 then C.State(Before, Cached, map[0 := writer], None, map[], {})
    else if i == 2 then C.State(After, Cached, map[0 := writer], None, map[0 := {"r"}], {})
    else if i == 3 then C.State(After, Cached, map[], Some((0, writer)), map[0 := {"r"}], {})
    else if i == 4 then C.State(After, Cached, map[], None, map[0 := {}], {})
    else C.State(After, Cached, map[1 := reader], None, map[0 := {}], {})
  }

  function States(lock: LockRequest): seq<C.State> {
    seq(7, i requires 0 <= i < 7 => At(lock, i))
  }

  lemma ReadCovers()
    ensures C.ReadsCover(Read)
  {
    forall key, s, t | SameStore(Read.readsOf(key), s, t)
      ensures Read.answer(key, s) == Read.answer(key, t)
    {
      assert "r" in Read.readsOf(key);
    }
  }

  lemma TwoOk(lock: LockRequest)
    ensures ProgramOk(Two(lock).program)
  {
    var p := Two(lock).program;
    assert UnitOk(p, p.units[0]) && UnitOk(p, p.units[1]);
  }

  lemma EventsAre()
    ensures EventsOf(Moves) == [Started(0), Ended(0), Finished(0), Started(1)]
  {
    assert Moves[..5] == Moves[..6][..5] && Moves[..6] == Moves;
    assert Moves[..4] == Moves[..5][..4] && Moves[..3] == Moves[..4][..3];
    assert Moves[..2] == Moves[..3][..2] && Moves[..1] == Moves[..2][..1] && Moves[..1][..0] == [];
    assert EventsOf(Moves[..1]) == [Started(0)];
    assert EventsOf(Moves[..2]) == [Started(0)];
    assert EventsOf(Moves[..3]) == [Started(0), Ended(0)];
    assert EventsOf(Moves[..4]) == [Started(0), Ended(0), Finished(0)];
    assert EventsOf(Moves[..5]) == [Started(0), Ended(0), Finished(0), Started(1)];
  }

  lemma LogIsLegal(lock: LockRequest)
    ensures Legal(Two(lock), [Started(0), Ended(0), Finished(0), Started(1)])
  {
    WriterIsLegal(lock);
    EndIsLegal(lock);
    FinishIsLegal(lock);
    ReaderIsLegal(lock);
  }

  lemma WriterIsLegal(lock: LockRequest)
    ensures Legal(Two(lock), [Started(0)])
    ensures ActiveIn([Started(0)]) == [0] && StartedIn([Started(0)]) == {0}
    ensures FinishedIn([Started(0)]) == EndedIn([Started(0)]) == {}
  {
    hide Legal, LegalEvent, StartedIn, FinishedIn, EndedIn, ActiveIn, HaltedIn;
    var log: Log := [];
    NothingIsLegal(Two(lock));
    NothingHappened();
    WriterMayStart(lock);
    assert log + [Started(0)] == [Started(0)];
    Appended(log, Started(0));
    LegalAppend(Two(lock), log, Started(0));
  }

  lemma NothingHappened()
    ensures ActiveIn([]) == [] && StartedIn([]) == FinishedIn([]) == EndedIn([]) == {}
  {
  }

  lemma WriterMayStart(lock: LockRequest)
    ensures LegalEvent(Two(lock), [], Started(0))
  {
  }

  lemma EndIsLegal(lock: LockRequest)
    requires Legal(Two(lock), [Started(0)])
    ensures Legal(Two(lock), [Started(0), Ended(0)])
    ensures ActiveIn([Started(0), Ended(0)]) == [] && StartedIn([Started(0), Ended(0)]) == {0}
    ensures FinishedIn([Started(0), Ended(0)]) == {} && EndedIn([Started(0), Ended(0)]) == {0}
  {
    hide Legal, StartedIn, FinishedIn, EndedIn, ActiveIn;
    WriterIsLegal(lock);
    var log: Log := [Started(0)];
    assert log + [Ended(0)] == [Started(0), Ended(0)];
    Appended(log, Ended(0));
    LegalAppend(Two(lock), log, Ended(0));
  }

  lemma FinishIsLegal(lock: LockRequest)
    requires Legal(Two(lock), [Started(0), Ended(0)])
    ensures Legal(Two(lock), [Started(0), Ended(0), Finished(0)])
    ensures ActiveIn([Started(0), Ended(0), Finished(0)]) == [] && StartedIn([Started(0), Ended(0), Finished(0)]) == {0}
    ensures FinishedIn([Started(0), Ended(0), Finished(0)]) == EndedIn([Started(0), Ended(0), Finished(0)]) == {0}
  {
    hide Legal, StartedIn, FinishedIn, EndedIn, ActiveIn;
    WriterIsLegal(lock);
    EndIsLegal(lock);
    var log: Log := [Started(0), Ended(0)];
    assert log + [Finished(0)] == [Started(0), Ended(0), Finished(0)];
    Appended(log, Finished(0));
    LegalAppend(Two(lock), log, Finished(0));
  }

  lemma ReaderIsLegal(lock: LockRequest)
    requires Legal(Two(lock), [Started(0), Ended(0), Finished(0)])
    ensures Legal(Two(lock), [Started(0), Ended(0), Finished(0), Started(1)])
  {
    hide Legal, LegalEvent, StartedIn, FinishedIn, EndedIn, ActiveIn;
    WriterIsLegal(lock);
    EndIsLegal(lock);
    FinishIsLegal(lock);
    var log: Log := [Started(0), Ended(0), Finished(0)];
    ReaderMayStart(lock, log);
    assert log + [Started(1)] == [Started(0), Ended(0), Finished(0), Started(1)];
    LegalAppend(Two(lock), log, Started(1));
  }

  lemma ReaderMayStart(lock: LockRequest, log: Log)
    requires ActiveIn(log) == [] && StartedIn(log) == FinishedIn(log) == EndedIn(log) == {0} && Halted !in log
    ensures LegalEvent(Two(lock), log, Started(1))
  {
    hide StartedIn, FinishedIn, EndedIn, ActiveIn;
  }

  lemma NothingIsLegal(c: Config)
    requires |c.unitDeps| == Units(c)
    ensures Legal(c, [])
  {
  }

  lemma KeptAnyway(dropped: set<Resource>)
    requires "r" !in dropped
    ensures Invalidate(Cached, dropped) == Cached
  {
    assert Cached[..0] == [];
    var none: seq<Item> := [];
    assert Drop(none, Overlapping(Cached, dropped)) == none;
  }

  lemma Changes()
    ensures C.Changed(Before, After) == {"r"}
  {
    assert !SameStore({"r"}, Before, After);
  }

  ghost predicate StaleRun(x: Setting, lock: LockRequest) {
    && x == Stale(lock, x.effects, x.recorded) && (lock.world || "r" in lock.writeSet)
    && "r" !in Dropped(x, 0)
  }

  lemma WriterStarts(x: Setting, lock: LockRequest)
    requires StaleRun(x, lock)
    ensures Moved(x, At(lock, 0), Moves[0], At(lock, 1))
  {
    hide Dropped;
  }

  lemma WriterWrites(x: Setting, lock: LockRequest)
    requires StaleRun(x, lock)
    ensures Moved(x, At(lock, 1), Moves[1], At(lock, 2))
  {
    hide Dropped;
    Changes();
    hide C.Changed;
    assert x.c.program.unitOf["w"] == 0;
    assert C.WroteBy(At(lock, 1), 0) + C.Changed(Before, After) == {"r"};
    assert C.After(x.k, At(lock, 1), C.Change(0, After), x.cap).wrote == map[0 := {"r"}];
  }

  lemma WriterEnds(x: Setting, lock: LockRequest)
    requires StaleRun(x, lock)
    ensures Moved(x, At(lock, 2), Moves[2], At(lock, 3))
  {
    hide Dropped;
    var s := C.After(x.k, At(lock, 2), C.Release(0), x.cap);
    assert s.active == map[] && s.pending == {};
  }

  lemma WriterFinishes(x: Setting, lock: LockRequest)
    requires StaleRun(x, lock)
    ensures Moved(x, At(lock, 3), Moves[3], At(lock, 4))
  {
    KeptAnyway(Dropped(x, 0));
    hide Dropped, Invalidate;
    var s := C.After(x.k, At(lock, 3), C.Absorb(0, Dropped(x, 0)), x.cap);
    assert s.items == Cached && s.wrote == map[0 := {}];
  }

  lemma ReaderStarts(x: Setting, lock: LockRequest)
    requires StaleRun(x, lock)
    ensures Moved(x, At(lock, 4), Moves[4], At(lock, 5))
  {
    hide Dropped;
  }

  lemma Looks(x: Setting, lock: LockRequest)
    requires x == Stale(lock, x.effects, x.recorded)
    ensures Find(Cached, Key) == Some(Cached[0]) && Touch(Cached, Key) == Cached
    ensures Moved(x, At(lock, 5), Moves[5], At(lock, 6))
  {
    assert Cached[..0] == [];
    assert Drop(Cached, {Key}) == [];
    assert Find(Cached, Key) == Some(Cached[0]);
  }

  lemma StaleMoves(x: Setting, lock: LockRequest)
    requires StaleRun(x, lock)
    ensures forall i | 0 <= i < 6 :: Moved(x, States(lock)[i], Moves[i], States(lock)[i + 1])
  {
    WriterStarts(x, lock);
    WriterWrites(x, lock);
    WriterEnds(x, lock);
    WriterFinishes(x, lock);
    ReaderStarts(x, lock);
    Looks(x, lock);
    hide Moved, StaleRun;
    assert At(lock, 6) == At(lock, 5);
  }

  lemma StartsCoherent(lock: LockRequest)
    ensures C.Coherent(Read, States(lock)[0].store, States(lock)[0].items)
    ensures States(lock)[0] == C.State(Before, Cached, map[], None, map[], {})
  {
  }

  lemma StaleIsRun(x: Setting, lock: LockRequest)
    requires StaleRun(x, lock)
    ensures EngineRun(x, States(lock), Moves)
  {
    StaleMoves(x, lock);
    StartsCoherent(lock);
    EventsAre();
    LogIsLegal(lock);
    TwoOk(lock);
    hide Legal, ProgramOk, Moved, EventsOf, C.Coherent, Dropped, At;
  }

  /** A change of "r" that its unit's finish does not drop, because the node that
      made it failed or does not declare it, is looked up as it was before. */
  lemma StaleHit(lock: LockRequest, effects: map<NodeId, ResolvedEffects>, recorded: Assignment)
    requires lock.world || "r" in lock.writeSet
    requires !Drops(Stale(lock, effects, recorded), "w", "r")
    ensures var x := Stale(lock, effects, recorded);
      C.ReadsCover(x.k) && EngineRun(x, States(lock), Moves) && HitDiffers(x, lock)
  {
    hide *;
    var x := Stale(lock, effects, recorded);
    IsStaleRun(lock, effects, recorded);
    StaleIsRun(x, lock);
    StaleDiffers(x, lock);
  }

  lemma IsStaleRun(lock: LockRequest, effects: map<NodeId, ResolvedEffects>, recorded: Assignment)
    requires lock.world || "r" in lock.writeSet
    requires !Drops(Stale(lock, effects, recorded), "w", "r")
    ensures StaleRun(Stale(lock, effects, recorded), lock)
  {
  }

  lemma StaleDiffers(x: Setting, lock: LockRequest)
    requires StaleRun(x, lock)
    ensures C.ReadsCover(x.k) && HitDiffers(x, lock)
  {
    ReadCovers();
    Looks(x, lock);
    hide C.ReadsCover, Dropped;
    assert States(lock)[5] == At(lock, 5);
  }

  /** The last move is a hit whose output is not what the call would answer. */
  ghost predicate HitDiffers(x: Setting, lock: LockRequest) {
    && Moves[5] == EngineCoherence.Unit(C.Hit(1, Key))
    && Find(States(lock)[5].items, Key).Some?
    && Find(States(lock)[5].items, Key).value.output != x.k.answer(Key, States(lock)[5].store)
  }

  /** So neither half of the condition can go: a write of a node that failed, and
      a write of a tool that declares nothing, are both lost. */
  lemma FailedAndUndeclared()
    ensures var failed := Stale(LockRequest({}, {"r"}, None, false),
              map["w" := ResolvedEffects("put", true, false, {}, {"r"}, false)], map["w" := Failed(Coded("failed"))]);
      !Drops(failed, "w", "r")
    ensures var undeclared := Stale(LockRequest({}, {}, None, true),
              map["w" := ResolvedEffects("put", false, false, {}, {}, false)], map["w" := Done(Null)]);
      !Drops(undeclared, "w", "r")
  {
  }
}
