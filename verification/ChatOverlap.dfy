/**
 Two overlapping sends: the empty list that a preparation keeps for an already
 distributed key can be attached by a send whose lookup is older than the mark.
 */
module ChatOverlap {
  import opened Options
  import opened StableDevices
  import opened ChatModel

  const BOB := StableDevice(Some(7), None, None, "web-bob", Some(1), None, None, None)
  const DEVICES := [BOB]
  const DRAW := Draw("key-1", 42, 5)
  const HASH := Sha256(DEVICES)
  const UNSENT := ActiveRecord("key-1", HASH, None)
  const MARKED := ActiveRecord("key-1", HASH, Some(HASH))
  const KEY := KeyLookup("key-1", 42, true, HASH)

  lemma Moves(s: State, t: TaskId, pc: Pc, pc': Pc)
    requires t in s.tasks && Reachable(SetPc(s, t, pc))
    requires AdvanceTask(SetPc(s, t, pc), t, DRAW) == SetPc(SetPc(s, t, pc), t, pc')
    ensures Reachable(SetPc(s, t, pc'))
  {
    StepReaches(SetPc(s, t, pc), Advance(t, DRAW), SetPc(SetPc(s, t, pc), t, pc'));
    assert SetPc(SetPc(s, t, pc), t, pc').tasks == SetPc(s, t, pc').tasks;
  }

  /** A task that has just started reads the active record. */
  lemma Reads(s: State, t: TaskId)
    requires t in s.tasks && s.tasks[t].pc == Trusting && Reachable(s)
    ensures Reachable(SetPc(s, t, ReadActive(s.active)))
  {
    assert SetPc(s, t, Trusting) == s;
    Moves(s, t, Trusting, Hashing);
    Moves(s, t, Hashing, ReadingActive);
    Moves(s, t, ReadingActive, ReadActive(s.active));
  }

  /** It finds the active key and its cached bytes. */
  lemma Finds(s: State, t: TaskId, r: ActiveRecord)
    requires t in s.tasks && s.tasks[t].pc == Trusting && s.tasks[t].devices == DEVICES && Reachable(s)
    requires s.active == Some(r) && r.uid == "key-1" && r.hash == HASH
    requires "key-1" in s.cache && s.cache["key-1"] == 42
    ensures Reachable(SetPc(s, t, LoadedRaw(r, Some(42))))
  {
    Reads(s, t);
    Moves(s, t, ReadActive(Some(r)), LoadedRaw(r, Some(42)));
  }

  const FULL := WrapAll(42, DEVICES)
  const FIRST := Message("key-1", AesGcm(42, 5, "hi"), FULL, DEVICES, true)
  const SECOND := Message("key-1", AesGcm(42, 5, "again"), [], DEVICES, true)

  function Sends(text: string, pc: Pc): Task { Task(Send(text), DEVICES, pc) }

  /** The client once the first send has published key-1. */
  function Published(prepared: Option<Prepared>, tasks: map<TaskId, Task>, messages: seq<Message>): State {
    State(Some(UNSENT), map["key-1" := 42], prepared, None, tasks, map[], [],
          map["key-1" := Birth(42, HASH)], [UNSENT], messages, [], {}, {})
  }

  const STARTED := INIT.(tasks := map[1 := Sends("hi", Trusting)])
  const CREATED :=
    STARTED.(cache := map["key-1" := 42], born := map["key-1" := Birth(42, HASH)],
             tasks := map[1 := Sends("hi", StoringRaw("key-1", 42))])
  const STORING := CREATED.(tasks := map[1 := Sends("hi", StoringActive("key-1", 42))])
  const FIRST_PUBLISHED := Published(None, map[1 := Sends("hi", StoredActive("key-1", 42))], [])

  lemma FirstCreates()
    ensures Reachable(CREATED)
  {
    assert Run([]) == INIT;
    StepReaches(INIT, StartSend(1, "hi", DEVICES), STARTED);
    Reads(STARTED, 1);
    StepReaches(SetPc(STARTED, 1, ReadActive(None)), Advance(1, DRAW), CREATED);
  }

  lemma FirstPublishes()
    ensures Reachable(FIRST_PUBLISHED)
  {
    FirstCreates();
    StepReaches(CREATED, Advance(1, DRAW), STORING);
    StepReaches(STORING, Advance(1, DRAW), FIRST_PUBLISHED);
  }

  const FULL_PREPARED := Some(Prepared("key-1", HASH, FULL))
  const FIRST_READY := Published(FULL_PREPARED, map[1 := Sends("hi", Indexing(KEY, FULL))], [])
  const FIRST_PUSHED := Published(FULL_PREPARED, map[1 := Sends("hi", Pushed(0))], [FIRST])

  lemma FirstEncrypts()
    ensures Reachable(SetPc(FIRST_PUBLISHED, 1, Wrapping(KEY)))
  {
    FirstPublishes();
    assert SetPc(FIRST_PUBLISHED, 1, StoredActive("key-1", 42)) == FIRST_PUBLISHED;
    Moves(FIRST_PUBLISHED, 1, StoredActive("key-1", 42), Encrypting(KEY));
    Moves(FIRST_PUBLISHED, 1, Encrypting(KEY), Wrapping(KEY));
  }

  lemma FirstWraps()
    ensures Reachable(FIRST_READY)
  {
    FirstEncrypts();
    StepReaches(SetPc(FIRST_PUBLISHED, 1, Wrapping(KEY)), Advance(1, DRAW), FIRST_READY);
  }

  lemma FirstPushes()
    ensures Reachable(FIRST_PUSHED)
  {
    FirstWraps();
    StepReaches(FIRST_READY, Advance(1, DRAW), FIRST_PUSHED);
  }

  /** The second send has looked the key up and is encrypting; the first is waiting for its reply. */
  const SECOND_STARTED := FIRST_PUSHED.(tasks := map[1 := Sends("hi", Pushed(0)), 2 := Sends("again", Trusting)])
  const OVERLAPPED := FIRST_PUSHED.(tasks := map[1 := Sends("hi", Pushed(0)), 2 := Sends("again", Encrypting(KEY))])

  lemma SecondLooksUp()
    ensures Reachable(OVERLAPPED)
  {
    FirstPushes();
    StepReaches(FIRST_PUSHED, StartSend(2, "again", DEVICES), SECOND_STARTED);
    Finds(SECOND_STARTED, 2, UNSENT);
    Moves(SECOND_STARTED, 2, LoadedRaw(UNSENT, Some(42)), Encrypting(KEY));
    assert SetPc(SECOND_STARTED, 2, Encrypting(KEY)) == OVERLAPPED;
  }

  /** The first send is acknowledged and marked as sent. */
  const REPLIED :=
    OVERLAPPED.(server := [0], acked := {0}, marks := [Mark("key-1", HASH)],
                tasks := map[1 := Sends("hi", Finished), 2 := Sends("again", Encrypting(KEY))])
  const MARKED_AS_SENT := REPLIED.(active := Some(MARKED), records := [UNSENT, MARKED], marks := [])

  lemma FirstIsAcknowledged()
    ensures Reachable(REPLIED)
  {
    SecondLooksUp();
    StepReaches(OVERLAPPED, ServerAccept(0), OVERLAPPED.(server := [0]));
    StepReaches(OVERLAPPED.(server := [0]), Reply(1, true), REPLIED);
  }

  lemma FirstIsMarked()
    ensures Reachable(MARKED_AS_SENT)
  {
    FirstIsAcknowledged();
    StepReaches(REPLIED, WriteMark(0), MARKED_AS_SENT);
  }

  /** Encryption is switched off and on again, which empties the slot and starts a preparation. */
  const OFF := MARKED_AS_SENT.(prepared := None)

  lemma EncryptionIsSwitchedOff()
    ensures Reachable(OFF)
  {
    FirstIsMarked();
    StepReaches(MARKED_AS_SENT, DisableEncryption, OFF);
  }

  /** The preparation finds nothing to distribute and keeps the empty list. */
  const EMPTY_PREPARED := Some(Prepared("key-1", HASH, []))
  const PREPARING := OFF.(promise := Some(3), tasks := OFF.tasks[3 := Task(Prepare, DEVICES, Trusting)])
  const PREPARED_EMPTY :=
    PREPARING.(prepared := EMPTY_PREPARED, tasks := OFF.tasks[3 := Task(Prepare, DEVICES, Settled(EMPTY_PREPARED))])
  const AFTER_PREPARATION :=
    PREPARED_EMPTY.(promise := None, results := map[3 := EMPTY_PREPARED],
                   tasks := OFF.tasks[3 := Task(Prepare, DEVICES, Finished)])

  lemma PreparationLooksUp()
    ensures Reachable(SetPc(PREPARING, 3, LoadedRaw(MARKED, Some(42))))
  {
    EncryptionIsSwitchedOff();
    StepReaches(OFF, StartPrepare(3, DEVICES), PREPARING);
    Finds(PREPARING, 3, MARKED);
  }

  lemma PreparationKeepsEmptyList()
    ensures Reachable(PREPARED_EMPTY)
  {
    PreparationLooksUp();
    StepReaches(SetPc(PREPARING, 3, LoadedRaw(MARKED, Some(42))), Advance(3, DRAW), PREPARED_EMPTY);
  }

  lemma PreparationSettles()
    ensures Reachable(AFTER_PREPARATION)
  {
    PreparationKeepsEmptyList();
    StepReaches(PREPARED_EMPTY, Advance(3, DRAW), AFTER_PREPARATION);
  }

  const LAST := SetPc(AFTER_PREPARATION.(messages := [FIRST, SECOND]), 2, Pushed(1))

  lemma SecondTakesEmptyList()
    ensures Reachable(SetPc(AFTER_PREPARATION, 2, Indexing(KEY, [])))
  {
    PreparationSettles();
    assert SetPc(AFTER_PREPARATION, 2, Encrypting(KEY)) == AFTER_PREPARATION;
    Moves(AFTER_PREPARATION, 2, Encrypting(KEY), Indexing(KEY, []));
  }

  lemma SecondPushesNothing()
    ensures Reachable(LAST)
  {
    SecondTakesEmptyList();
    StepReaches(SetPc(AFTER_PREPARATION, 2, Indexing(KEY, [])), Advance(2, DRAW), LAST);
  }

  /**
   The overlap: a message that needed packages for its one device leaves with
   none. (Its key was distributed by the acknowledged first message, as
   OmittedOnlyAfterAcknowledgedSend says it must have been.)
   */
  lemma EmptyListCanBeAttached()
    ensures exists events, m: MessageId ::
              && m < |Run(events).messages|
              && Run(events).messages[m].needed
              && Run(events).messages[m].devices != []
              && Run(events).messages[m].packages == []
  {
    SecondPushesNothing();
    var events :| Run(events) == LAST;
    assert Run(events).messages[1].needed;
  }
}
