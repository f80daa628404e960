/**
 A `say` and its talk-log entry: the registry protocol and the talk log stepped together.

 The control task records the prompt and then calls `Registry::prompt` (src/wire/control.rs:493-525).
 A connection task that reads a `reply` records it and then resolves it, with nothing of its own in
 between (src/wire/connection.rs:634-668): `hand` is the reply it is at that moment carrying.
 */
module SayLog {
  import opened Prelude
  import opened RegistryTable
  import opened RegistryCalls
  import opened RegistryInvariants
  import R = RegistryProtocol
  import P = PromptLoop
  import T = TalkLog
  import opened Exchange

  datatype Server = Server(reg: R.State, files: T.Files, hand: map<ConnId, Frame>)

  datatype Step =
    | Ask(h: CallId, token: TokenId, id: Id, session: string, text: string, ts: int, disk: T.Disk)
    | Note(c: ConnId, id: Id, body: P.ReplyBody, ts: int, disk: T.Disk)
    | Other(a: R.Action)

  predicate HandlesReply(a: R.Action)
  {
    a.Handle? && a.frame.Reply?
  }

  /** The step belongs to the task of connection `a.c`. */
  predicate OfTask(a: R.Action)
  {
    a.Pump? || a.Break? || a.Closed? || a.Cleanup? || a.EndTask? || a.Rename? || a.Handle?
  }

  /** A prompt's id is new to the registry and to its file; a task finishes one frame before it does anything else. */
  predicate Enabled(s: Server, step: Step)
  {
    match step
    case Ask(h, token, id, session, _, _, _) =>
      R.Enabled(s.reg, R.Begin(h, Prompt, token, id, session)) &&
      T.Lookup(s.files, T.SafeFilename(session), id).None?
    case Note(c, _, _, _, _) => R.TaskIs(s.reg, c, R.Running) && c !in s.hand
    case Other(a) =>
      && R.Enabled(s.reg, a)
      && !(a.Begin? && a.kind == Prompt)
      && if HandlesReply(a) then a.c in s.hand && s.hand[a.c] == a.frame else OfTask(a) ==> a.c !in s.hand
  }

  function Apply(s: Server, step: Step): (s': Server)
    requires Enabled(s, step)
  {
    match step
    case Ask(h, token, id, session, text, ts, disk) =>
      s.(reg := R.Apply(s.reg, R.Begin(h, Prompt, token, id, session)),
         files := T.Apply(s.files, T.Prompted(id, session, text, ts, disk)))
    case Note(c, id, body, ts, disk) =>
      s.(files := T.Apply(s.files, T.Replied(id, body, ts, disk)), hand := s.hand[c := Reply(id, body)])
    case Other(a) => s.(reg := R.Apply(s.reg, a), hand := if HandlesReply(a) then s.hand - {a.c} else s.hand)
  }

  /** A server starts with an empty registry and whatever earlier processes left in the log. */
  ghost predicate IsRun(states: seq<Server>, steps: seq<Step>)
  {
    && |states| == |steps| + 1
    && states[0].reg == R.Initial() && states[0].hand == map[]
    && forall i | 0 <= i < |steps| :: Enabled(states[i], steps[i]) && states[i + 1] == Apply(states[i], steps[i])
  }

  /** The replies to an id that connections have read, in the order in which they recorded them. */
  function Noted(steps: seq<Step>, id: Id, file: string): (answers: seq<Recording>)
  {
    if steps == [] then [] else
      var step := steps[|steps| - 1];
      Noted(steps[..|steps| - 1], id, file) + News(step, id, file)
  }

  /** A reply lands in a file if it names a session of that file, which is loaded and saved for it. */
  function News(step: Step, id: Id, file: string): (answers: seq<Recording>)
  {
    if step.Note? && step.id == id
    then [Recording(step.body, step.disk == T.WORKS && T.SafeFilename(step.body.session) == file)]
    else []
  }

  /** The prompt of this id has been filed on this token, so that its frame can have gone out there. */
  predicate Sendable(s: Server, id: Id, token: TokenId)
  {
    exists h <- s.reg.calls :: s.reg.calls[h].id == id && s.reg.calls[h].token == token && !Early(s.reg.calls[h])
  }

  /**
   The replies to `id` come on connections of the prompt's token, once it is filed, and one at a time: no
   connection records one while another carries one. Reconnects and a failing disk are all right.
   */
  predicate Orderly(s: Server, step: Step, id: Id)
  {
    step.Note? && step.id == id ==>
      && step.c in s.reg.conns && Sendable(s, id, s.reg.conns[step.c].token)
      && forall d <- s.hand :: s.hand[d].id != id
  }

  // ----- What reached the queue is a prefix of what was recorded -----

  predicate Carried(s: Server, id: Id)
  {
    exists d <- s.hand :: s.hand[d].id == id
  }

  /** The replies to `id` that have been both recorded and handed on. */
  function Through(s: Server, id: Id, noted: seq<P.ReplyBody>): (rs: seq<P.ReplyBody>)
  {
    if Carried(s, id) && noted != [] then noted[..|noted| - 1] else noted
  }

  /** What a task carries for the prompt is the last reply recorded for it, and no other task carries one. */
  ghost predicate HandOk(s: Server, call: Call, noted: seq<P.ReplyBody>)
  {
    && (forall d <- s.hand | s.hand[d].id == call.id ::
          && noted != [] && s.hand[d] == Reply(call.id, noted[|noted| - 1])
          && d in s.reg.conns && s.reg.conns[d].token == call.token)
    && (forall d, e | d in s.hand && e in s.hand && s.hand[d].id == call.id && s.hand[e].id == call.id :: d == e)
  }

  predicate Pending(s: R.State, call: Call)
  {
    Find(s.entries, call.token, SlotOf(call)).Some?
  }

  ghost predicate Linked(s: Server, h: CallId, noted: seq<P.ReplyBody>)
  {
    && h in s.reg.calls
    && var call := s.reg.calls[h];
       var through := Through(s, call.id, noted);
       && call.kind == Prompt
       && HandOk(s, call, noted)
       && P.Replies(call.events) <= through
       && (Early(call) ==> noted == [])
       && (Pending(s.reg, call) ==> P.Replies(call.events) == through)
  }

  /** A registry step that hands this prompt no reply leaves its replies alone, and files its waiter at most once. */
  ghost predicate Unmoved(s: R.State, s': R.State, h: CallId)
  {
    && h in s.calls && h in s'.calls
    && SameCall(s.calls[h], s'.calls[h])
    && P.Replies(s'.calls[h].events) == P.Replies(s.calls[h].events)
    && (Early(s'.calls[h]) ==> Early(s.calls[h]))
    && (Pending(s', s'.calls[h]) ==> Pending(s, s.calls[h]) || Early(s.calls[h]))
  }

  lemma UnmovedHandle(s: R.State, c: ConnId, f: Frame, kind: Kind, h: CallId)
    requires IdsDistinct(s) && PendingOk(s) && R.Enabled(s, R.Handle(c, f, kind)) && h in s.calls
    requires f.Reply? ==> f.id != s.calls[h].id || s.conns[c].token != s.calls[h].token
    ensures Unmoved(s, R.DoHandle(s, c, f, kind), h)
  {
    var token, slot := s.conns[c].token, Slot(kind, f.id);
    if Find(s.entries, token, slot).Some? {
      assert WaiterOk(s, token, slot);
      if s.entries[token].pending[slot].call == h && kind == Prompt {
        assert f.Error?;
        P.TranscriptStep(s.calls[h].events, P.Err(f.error));
      }
    }
  }

  lemma DoKeepsEarly(call: Call, v: View, todo: Todo)
    requires CanDo(call, v, todo)
    ensures Early(Do(call, v, todo).call) || Do(call, v, todo).table.FileWaiter? ==> Early(call)
  {
  }

  /** The waiter of `call` appears in the table only if the step files it. */
  lemma TableOpPending(t: Table, g: CallId, mover: Call, op: TableOp, call: Call)
    requires Find(R.TableAfter(t, g, mover, op), call.token, SlotOf(call)).Some?
    ensures Find(t, call.token, SlotOf(call)).Some? || (op.FileWaiter? && mover.id == call.id)
  {
  }

  lemma UnmovedAdvance(s: R.State, g: CallId, todo: Todo, h: CallId)
    requires IdsDistinct(s) && R.Enabled(s, R.Advance(g, todo)) && h in s.calls
    ensures Unmoved(s, R.DoAdvance(s, g, todo), h)
  {
    var mover, call, v := s.calls[g], s.calls[h], R.ViewOf(s, s.calls[g]);
    var e, s' := Do(mover, v, todo), R.DoAdvance(s, g, todo);
    OthersKept(s, g, todo);
    DoSameCall(mover, v, todo);
    DoKeepsEvents(mover, v, todo);
    DoKeepsEarly(mover, v, todo);
    P.TranscriptStep(call.events, P.Cancelled);
    assert s'.entries == R.TableAfter(s.entries, g, mover, e.table);
    if Pending(s', s'.calls[h]) { TableOpPending(s.entries, g, mover, e.table, s'.calls[h]); }
    assert g != h ==> mover.id != call.id;
  }

  lemma UnmovedTask(s: R.State, a: R.Action, h: CallId)
    requires R.Enabled(s, a) && !a.Handle? && !a.Advance? && h in s.calls
    ensures Unmoved(s, R.Apply(s, a), h)
  {
  }

  lemma UnmovedStep(s: R.State, a: R.Action, h: CallId)
    requires Inv(s) && R.Enabled(s, a) && h in s.calls
    requires HandlesReply(a) ==> a.frame.id != s.calls[h].id || s.conns[a.c].token != s.calls[h].token
    ensures Unmoved(s, R.Apply(s, a), h)
  {
    match a {
      case Handle(c, f, kind) => UnmovedHandle(s, c, f, kind, h);
      case Advance(g, todo) => UnmovedAdvance(s, g, todo, h);
      case _ => UnmovedTask(s, a, h);
    }
  }

  /** A step that hands this prompt nothing, and takes nothing of its out of a hand, keeps the link. */
  lemma LinkedUnmoved(s: Server, s': Server, h: CallId, noted: seq<P.ReplyBody>)
    requires Linked(s, h, noted) && Unmoved(s.reg, s'.reg, h)
    requires forall d <- s.reg.conns :: d in s'.reg.conns && s'.reg.conns[d].token == s.reg.conns[d].token
    requires forall d <- s'.hand :: d in s.hand && s'.hand[d] == s.hand[d]
    requires forall d <- s.hand :: d in s'.hand || s.hand[d].id != s.reg.calls[h].id
    ensures Linked(s', h, noted)
  {
    var id := s.reg.calls[h].id;
    if Carried(s, id) {
      var d :| d in s.hand && s.hand[d].id == id;
      assert d in s'.hand && s'.hand[d].id == id;
    }
  }

  lemma LinkedNoteElse(s: Server, step: Step, h: CallId, noted: seq<P.ReplyBody>)
    requires Linked(s, h, noted) && step.Note? && Enabled(s, step) && step.id != s.reg.calls[h].id
    ensures Linked(Apply(s, step), h, noted)
  {
    var id, s' := s.reg.calls[h].id, Apply(s, step);
    assert forall d | d in s'.hand && s'.hand[d].id == id :: d in s.hand && s'.hand[d] == s.hand[d];
    if Carried(s, id) {
      var d :| d in s.hand && s.hand[d].id == id;
      assert d in s'.hand && s'.hand[d].id == id;
    }
  }

  lemma LinkedNoteOwn(s: Server, step: Step, h: CallId, noted: seq<P.ReplyBody>)
    requires Linked(s, h, noted) && IdsDistinct(s.reg) && step.Note? && Enabled(s, step) && step.id == s.reg.calls[h].id
    requires Orderly(s, step, step.id)
    ensures Linked(Apply(s, step), h, noted + [step.body])
  {
    var id, s', noted' := step.id, Apply(s, step), noted + [step.body];
    assert noted'[..|noted'| - 1] == noted;
    assert step.c in s'.hand && s'.hand[step.c].id == id;
    assert forall d <- s'.hand | s'.hand[d].id == id :: d == step.c;
    assert Through(s', id, noted') == noted;
    assert Through(s, id, noted) == noted;
  }

  /** A reply is recorded, and is now in its connection's hand. */
  lemma LinkedNote(s: Server, step: Step, h: CallId, noted: seq<P.ReplyBody>)
    requires Linked(s, h, noted) && IdsDistinct(s.reg) && step.Note? && Enabled(s, step)
    requires Orderly(s, step, s.reg.calls[h].id)
    ensures Linked(Apply(s, step), h, if step.id == s.reg.calls[h].id then noted + [step.body] else noted)
  {
    if step.id == s.reg.calls[h].id {
      LinkedNoteOwn(s, step, h, noted);
    } else {
      LinkedNoteElse(s, step, h, noted);
    }
  }

  /** A reply to the prompt joins its queue exactly when its waiter is pending on the connection's token. */
  lemma ReplyReaches(s: R.State, c: ConnId, r: P.ReplyBody, h: CallId)
    requires IdsDistinct(s) && PendingOk(s) && c in s.conns && h in s.calls && s.calls[h].kind == Prompt
    ensures var call, s' := s.calls[h], R.DoHandle(s, c, Reply(s.calls[h].id, r), Prompt);
            && s'.entries == s.entries && s'.conns == s.conns && h in s'.calls
            && s'.calls[h] == if Pending(s, call) && s.conns[c].token == call.token
                              then call.(events := call.events + [P.Reply(r)]) else call
  {
    var token, slot := s.conns[c].token, SlotOf(s.calls[h]);
    if Find(s.entries, token, slot).Some? {
      assert WaiterOk(s, token, slot);
      assert s.entries[token].pending[slot].call == h;
    }
  }

  /** Once the one reply in hand is resolved, all that was recorded has gone through. */
  lemma HandEmptied(s: Server, s': Server, call: Call, c: ConnId, noted: seq<P.ReplyBody>, r: P.ReplyBody)
    requires HandOk(s, call, noted) && c in s.hand && s.hand[c] == Reply(call.id, r) && s'.hand == s.hand - {c}
    ensures HandOk(s', call, noted) && noted != [] && noted == noted[..|noted| - 1] + [r]
    ensures Through(s, call.id, noted) == noted[..|noted| - 1] && Through(s', call.id, noted) == noted
  {
    assert Carried(s, call.id);
    assert forall d <- s'.hand :: d in s.hand && d != c;
    assert !Carried(s', call.id);
  }

  /** It joins the queue of the waiting call. */
  lemma LinkedDelivered(s: Server, s': Server, h: CallId, c: ConnId, noted: seq<P.ReplyBody>, r: P.ReplyBody)
    requires Linked(s, h, noted) && c in s.hand && s.hand[c] == Reply(s.reg.calls[h].id, r) && s'.hand == s.hand - {c}
    requires s'.reg.entries == s.reg.entries && s'.reg.conns == s.reg.conns && h in s'.reg.calls
    requires Pending(s.reg, s.reg.calls[h])
    requires s'.reg.calls[h] == s.reg.calls[h].(events := s.reg.calls[h].events + [P.Reply(r)])
    ensures Linked(s', h, noted)
  {
    HandEmptied(s, s', s.reg.calls[h], c, noted, r);
    P.TranscriptStep(s.reg.calls[h].events, P.Reply(r));
  }

  /** Or it finds nobody. */
  lemma LinkedDropped(s: Server, s': Server, h: CallId, c: ConnId, noted: seq<P.ReplyBody>, r: P.ReplyBody)
    requires Linked(s, h, noted) && c in s.hand && s.hand[c] == Reply(s.reg.calls[h].id, r) && s'.hand == s.hand - {c}
    requires s'.reg.entries == s.reg.entries && s'.reg.conns == s.reg.conns && h in s'.reg.calls
    requires !Pending(s.reg, s.reg.calls[h]) && s'.reg.calls[h] == s.reg.calls[h]
    ensures Linked(s', h, noted)
  {
    HandEmptied(s, s', s.reg.calls[h], c, noted, r);
  }

  lemma LinkedOwn(s: Server, a: R.Action, h: CallId, noted: seq<P.ReplyBody>)
    requires Linked(s, h, noted) && IdsDistinct(s.reg) && PendingOk(s.reg) && Enabled(s, Other(a))
    requires HandlesReply(a) && a.frame.id == s.reg.calls[h].id
    ensures Linked(Apply(s, Other(a)), h, noted)
  {
    assert a.c in s.hand && s.hand[a.c] == a.frame && a.kind == Prompt;
    ReplyReaches(s.reg, a.c, a.frame.reply, h);
    if Pending(s.reg, s.reg.calls[h]) {
      LinkedDelivered(s, Apply(s, Other(a)), h, a.c, noted, a.frame.reply);
    } else {
      LinkedDropped(s, Apply(s, Other(a)), h, a.c, noted, a.frame.reply);
    }
  }

  lemma LinkedElse(s: Server, a: R.Action, h: CallId, noted: seq<P.ReplyBody>)
    requires Linked(s, h, noted) && Enabled(s, Other(a)) && Unmoved(s.reg, R.Apply(s.reg, a), h)
    requires HandlesReply(a) ==> a.frame.id != s.reg.calls[h].id
    ensures Linked(Apply(s, Other(a)), h, noted)
  {
    ConnsOnward(s.reg, a);
    LinkedUnmoved(s, Apply(s, Other(a)), h, noted);
  }

  lemma LinkedOther(s: Server, a: R.Action, h: CallId, noted: seq<P.ReplyBody>)
    requires Linked(s, h, noted) && Inv(s.reg) && Enabled(s, Other(a))
    ensures Linked(Apply(s, Other(a)), h, noted)
  {
    if HandlesReply(a) && a.frame.id == s.reg.calls[h].id {
      LinkedOwn(s, a, h, noted);
    } else {
      UnmovedStep(s.reg, a, h);
      LinkedElse(s, a, h, noted);
    }
  }

  lemma LinkedAsk(s: Server, step: Step, s': Server, h: CallId, noted: seq<P.ReplyBody>)
    requires Linked(s, h, noted) && Inv(s.reg) && step.Ask? && Enabled(s, step) && s' == Apply(s, step)
    ensures Linked(s', h, noted) && SameCall(s.reg.calls[h], s'.reg.calls[h])
  {
    var a := R.Begin(step.h, Prompt, step.token, step.id, step.session);
    UnmovedStep(s.reg, a, h);
    ConnsOnward(s.reg, a);
    LinkedUnmoved(s, s', h, noted);
  }

  // ----- What was recorded is in the entry -----

  /** The step is a prompt that could not load this file, and rewrote it. */
  predicate WipesFile(step: Step, file: string)
  {
    step.Ask? && !step.disk.loads && step.disk.saves && T.SafeFilename(step.session) == file
  }

  /** The prompt's entry is on file if it was saved and the file not wiped since, and holds the replies that landed. */
  ghost predicate InLog(files: T.Files, ask: Step, answers: seq<Recording>, wiped: bool)
    requires ask.Ask?
  {
    var e := T.Lookup(files, T.SafeFilename(ask.session), ask.id);
    && (e.Some? <==> ask.disk.saves && !wiped)
    && (e.Some? ==>
          && e.value.session == ask.session && e.value.promptText == ask.text
          && Said(e.value.replies) == Kept(answers))
  }

  lemma InLogNote(files: T.Files, step: Step, ask: Step, answers: seq<Recording>, wiped: bool)
    requires ask.Ask? && InLog(files, ask, answers, wiped) && step.Note?
    ensures InLog(T.Apply(files, T.Replied(step.id, step.body, step.ts, step.disk)), ask,
                  answers + News(step, ask.id, T.SafeFilename(ask.session)), wiped)
  {
    var file, op := T.SafeFilename(ask.session), T.Replied(step.id, step.body, step.ts, step.disk);
    T.ApplyLookup(files, op, file, ask.id);
    if step.id == ask.id {
      KeptSnoc(answers, News(step, ask.id, file)[0]);
      if T.Lookup(files, file, ask.id).Some? {
        SaidSnoc(T.Lookup(files, file, ask.id).value.replies, op.body, op.ts);
      }
    } else {
      assert answers + [] == answers;
    }
  }

  lemma SaidSnoc(replies: seq<T.TalkReply>, r: P.ReplyBody, ts: int)
    ensures Said(replies + [T.Record(r, ts)]) == Said(replies) + [r.(session := "")]
  {
  }

  /** The prompt is known to the registry, so that no other prompt will take its id. */
  ghost predicate Logging(s: Server, ask: Step, answers: seq<Recording>, wiped: bool)
  {
    && ask.Ask? && ask.h in s.reg.calls
    && s.reg.calls[ask.h].id == ask.id
    && InLog(s.files, ask, answers, wiped)
  }

  lemma LoggingOther(s: Server, a: R.Action, ask: Step, answers: seq<Recording>, wiped: bool)
    requires Logging(s, ask, answers, wiped) && Enabled(s, Other(a))
    ensures Logging(Apply(s, Other(a)), ask, answers, wiped)
  {
    CallsStep(s.reg, a);
    assert SameCall(s.reg.calls[ask.h], R.Apply(s.reg, a).calls[ask.h]);
  }

  lemma LoggingAsk(s: Server, step: Step, ask: Step, answers: seq<Recording>, wiped: bool)
    requires Logging(s, ask, answers, wiped) && step.Ask? && Enabled(s, step)
    ensures Logging(Apply(s, step), ask, answers, wiped || WipesFile(step, T.SafeFilename(ask.session)))
  {
    var op := T.Prompted(step.id, step.session, step.text, step.ts, step.disk);
    T.ApplyLookup(s.files, op, T.SafeFilename(ask.session), ask.id);
  }

  lemma LoggingStep(s: Server, step: Step, s': Server, ask: Step, answers: seq<Recording>, wiped: bool)
    requires Logging(s, ask, answers, wiped) && Enabled(s, step) && s' == Apply(s, step)
    ensures Logging(s', ask, answers + News(step, ask.id, T.SafeFilename(ask.session)),
                    wiped || WipesFile(step, T.SafeFilename(ask.session)))
  {
    assert answers + [] == answers;
    match step {
      case Ask(_, _, _, _, _, _, _) => LoggingAsk(s, step, ask, answers, wiped);
      case Note(_, _, _, _, _) => InLogNote(s.files, step, ask, answers, wiped);
      case Other(a) => LoggingOther(s, a, ask, answers, wiped);
    }
  }

  lemma AskedLogs(s: Server, step: Step)
    requires step.Ask? && Enabled(s, step)
    ensures Logging(Apply(s, step), step, [], false)
  {
    var op := T.Prompted(step.id, step.session, step.text, step.ts, step.disk);
    T.ApplyLookup(s.files, op, T.SafeFilename(step.session), step.id);
    assert Said([]) == [];
  }

  // ----- Runs -----

  lemma {:induction false} InvRun(states: seq<Server>, steps: seq<Step>, n: nat)
    requires IsRun(states, steps) && n < |states|
    ensures Inv(states[n].reg)
  {
    if n > 0 {
      InvRun(states, steps, n - 1);
      var s, step := states[n - 1], steps[n - 1];
      match step {
        case Ask(h, token, id, session, _, _, _) => InvStep(s.reg, R.Begin(h, Prompt, token, id, session));
        case Note(_, _, _, _, _) =>
        case Other(a) => InvStep(s.reg, a);
      }
    }
  }

  /** What connections have recorded for a prompt, since it was asked at step `m`, by state `n`. */
  function Since(steps: seq<Step>, m: nat, n: nat, ask: Step): (answers: seq<Recording>)
    requires m < n <= |steps| && ask.Ask?
  {
    Noted(steps[m + 1..n], ask.id, T.SafeFilename(ask.session))
  }

  function Answers(steps: seq<Step>, m: nat, n: nat): (answers: seq<Recording>)
    requires m < n <= |steps| && steps[m].Ask?
  {
    Since(steps, m, n, steps[m])
  }

  lemma SinceStep(steps: seq<Step>, m: nat, n: nat, ask: Step)
    requires m < n < |steps| && ask.Ask?
    ensures Since(steps, m, n + 1, ask) == Since(steps, m, n, ask) + News(steps[n], ask.id, T.SafeFilename(ask.session))
    ensures Bodies(Since(steps, m, n + 1, ask)) ==
            if steps[n].Note? && steps[n].id == ask.id then Bodies(Since(steps, m, n, ask)) + [steps[n].body]
            else Bodies(Since(steps, m, n, ask))
  {
    var since := steps[m + 1..n + 1];
    assert since[..|since| - 1] == steps[m + 1..n] && since[|since| - 1] == steps[n];
    assert Since(steps, m, n, ask) + [] == Since(steps, m, n, ask);
  }

  /** Some prompt since the one at step `m` wiped its file. */
  predicate WipedSince(steps: seq<Step>, m: nat, n: nat, ask: Step)
    requires m < n <= |steps| && ask.Ask?
  {
    exists i :: m < i < n && WipesFile(steps[i], T.SafeFilename(ask.session))
  }

  lemma WipedStep(steps: seq<Step>, m: nat, n: nat, ask: Step)
    requires m < n < |steps| && ask.Ask?
    ensures WipedSince(steps, m, n + 1, ask) <==>
              WipedSince(steps, m, n, ask) || WipesFile(steps[n], T.SafeFilename(ask.session))
  {
  }

  ghost predicate LoggingNow(states: seq<Server>, steps: seq<Step>, m: nat, n: nat, ask: Step)
    requires m < n <= |steps| < |states| && ask.Ask?
  {
    Logging(states[n], ask, Since(steps, m, n, ask), WipedSince(steps, m, n, ask))
  }

  lemma LoggedAt(states: seq<Server>, steps: seq<Step>, m: nat, n: nat, ask: Step)
    requires IsRun(states, steps) && m < n < |steps| && ask.Ask? && LoggingNow(states, steps, m, n, ask)
    ensures LoggingNow(states, steps, m, n + 1, ask)
  {
    SinceStep(steps, m, n, ask);
    WipedStep(steps, m, n, ask);
    LoggingStep(states[n], steps[n], states[n + 1], ask, Since(steps, m, n, ask), WipedSince(steps, m, n, ask));
  }

  lemma {:induction false} LoggedOn(states: seq<Server>, steps: seq<Step>, m: nat, k: nat, n: nat, ask: Step)
    requires IsRun(states, steps) && m < k <= n < |states| && ask.Ask? && LoggingNow(states, steps, m, k, ask)
    ensures LoggingNow(states, steps, m, n, ask)
    decreases n - k
  {
    if k < n {
      LoggedAt(states, steps, m, k, ask);
      LoggedOn(states, steps, m, k + 1, n, ask);
    }
  }

  lemma LoggedFirst(states: seq<Server>, steps: seq<Step>, m: nat)
    requires IsRun(states, steps) && m < |steps| && steps[m].Ask?
    ensures LoggingNow(states, steps, m, m + 1, steps[m])
  {
    AskedLogs(states[m], steps[m]);
    assert steps[m + 1..m + 1] == [];
    assert !WipedSince(steps, m, m + 1, steps[m]);
  }

  /**
   In every run, whatever the replies, the connections and the disk do: a prompt has an entry exactly if
   it was saved and no later prompt, unable to load the file, rewrote it; and the entry holds the replies
   recorded since that landed in its file.
   */
  lemma LoggedRun(states: seq<Server>, steps: seq<Step>, m: nat, n: nat)
    requires IsRun(states, steps) && m < n < |states| && steps[m].Ask?
    ensures Logging(states[n], steps[m], Answers(steps, m, n), WipedSince(steps, m, n, steps[m]))
  {
    LoggedFirst(states, steps, m);
    LoggedOn(states, steps, m, m + 1, n, steps[m]);
  }

  predicate Unused(s: Server, id: Id)
  {
    forall g <- s.reg.calls :: s.reg.calls[g].id != id
  }

  lemma UnusedBefore(s: Server, step: Step, s': Server, id: Id)
    requires Enabled(s, step) && s' == Apply(s, step) && Unused(s', id)
    ensures Unused(s, id)
  {
    match step {
      case Ask(h, token, i, session, _, _, _) => CallsStep(s.reg, R.Begin(h, Prompt, token, i, session));
      case Note(_, _, _, _, _) =>
      case Other(a) => CallsStep(s.reg, a);
    }
    forall g <- s.reg.calls ensures s.reg.calls[g].id != id { assert SameCall(s.reg.calls[g], s'.reg.calls[g]); }
  }

  lemma UnusedAt(states: seq<Server>, steps: seq<Step>, n: nat, id: Id)
    requires IsRun(states, steps) && n < |steps| && Unused(states[n + 1], id)
    ensures Unused(states[n], id)
  {
    UnusedBefore(states[n], steps[n], states[n + 1], id);
  }

  lemma {:induction false} UnusedUntil(states: seq<Server>, steps: seq<Step>, n: nat, m: nat, id: Id)
    requires IsRun(states, steps) && n <= m < |states| && Unused(states[m], id)
    ensures Unused(states[n], id)
    decreases m - n
  {
    if n < m {
      UnusedUntil(states, steps, n + 1, m, id);
      UnusedAt(states, steps, n, id);
    }
  }

  ghost predicate AllOrderly(states: seq<Server>, steps: seq<Step>, n: nat, id: Id)
    requires n <= |steps| <= |states|
  {
    forall i | 0 <= i < n :: Orderly(states[i], steps[i], id)
  }

  /** Before its prompt is asked, no task carries a reply to an id. */
  lemma {:induction false} SilentBefore(states: seq<Server>, steps: seq<Step>, n: nat, m: nat, id: Id)
    requires IsRun(states, steps) && n <= m < |states| && Unused(states[m], id) && AllOrderly(states, steps, m, id)
    ensures forall d <- states[n].hand :: states[n].hand[d].id != id
  {
    if n > 0 {
      SilentBefore(states, steps, n - 1, m, id);
      UnusedUntil(states, steps, n - 1, m, id);
      assert Orderly(states[n - 1], steps[n - 1], id);
    }
  }

  /** The prompt is asked: its queue is empty, and nobody carries anything for it. */
  lemma AskedLinks(s: Server, step: Step)
    requires step.Ask? && Enabled(s, step) && forall d <- s.hand :: s.hand[d].id != step.id
    ensures Linked(Apply(s, step), step.h, []) && Apply(s, step).reg.calls[step.h].id == step.id
  {
  }

  /** The prompt's queue, and what was recorded for it. */
  ghost predicate Joined(s: Server, ask: Step, noted: seq<P.ReplyBody>)
  {
    ask.Ask? && Linked(s, ask.h, noted) && s.reg.calls[ask.h].id == ask.id
  }

  lemma JoinedOther(s: Server, a: R.Action, ask: Step, noted: seq<P.ReplyBody>)
    requires Joined(s, ask, noted) && Inv(s.reg) && Enabled(s, Other(a))
    ensures Joined(Apply(s, Other(a)), ask, noted)
  {
    CallsStep(s.reg, a);
    assert SameCall(s.reg.calls[ask.h], R.Apply(s.reg, a).calls[ask.h]);
    LinkedOther(s, a, ask.h, noted);
  }

  lemma JoinedNote(s: Server, step: Step, ask: Step, noted: seq<P.ReplyBody>)
    requires Joined(s, ask, noted) && IdsDistinct(s.reg) && step.Note? && Enabled(s, step) && Orderly(s, step, ask.id)
    ensures Joined(Apply(s, step), ask, if step.id == ask.id then noted + [step.body] else noted)
  {
    LinkedNote(s, step, ask.h, noted);
  }

  lemma JoinedStep(s: Server, step: Step, s': Server, ask: Step, noted: seq<P.ReplyBody>, noted': seq<P.ReplyBody>)
    requires Joined(s, ask, noted) && Inv(s.reg) && Enabled(s, step) && s' == Apply(s, step) && Orderly(s, step, ask.id)
    requires noted' == if step.Note? && step.id == ask.id then noted + [step.body] else noted
    ensures Joined(s', ask, noted')
  {
    match step {
      case Ask(_, _, _, _, _, _, _) => LinkedAsk(s, step, s', ask.h, noted);
      case Note(_, _, _, _, _) => JoinedNote(s, step, ask, noted);
      case Other(a) => JoinedOther(s, a, ask, noted);
    }
  }

  ghost predicate JoinedNow(states: seq<Server>, steps: seq<Step>, m: nat, n: nat, ask: Step)
    requires m < n <= |steps| < |states| && ask.Ask?
  {
    Joined(states[n], ask, Bodies(Since(steps, m, n, ask)))
  }

  lemma AskedAt(states: seq<Server>, steps: seq<Step>, m: nat)
    requires IsRun(states, steps) && m < |steps| && steps[m].Ask? && AllOrderly(states, steps, m, steps[m].id)
    ensures JoinedNow(states, steps, m, m + 1, steps[m])
  {
    SilentBefore(states, steps, m, m, steps[m].id);
    assert steps[m + 1..m + 1] == [];
    assert Bodies([]) == [];
    AskedLinks(states[m], steps[m]);
  }

  lemma JoinedAt(states: seq<Server>, steps: seq<Step>, m: nat, n: nat, ask: Step)
    requires IsRun(states, steps) && m < n < |steps| && ask.Ask?
    requires JoinedNow(states, steps, m, n, ask) && Orderly(states[n], steps[n], ask.id)
    ensures JoinedNow(states, steps, m, n + 1, ask)
  {
    InvRun(states, steps, n);
    SinceStep(steps, m, n, ask);
    var noted, noted' := Bodies(Since(steps, m, n, ask)), Bodies(Since(steps, m, n + 1, ask));
    JoinedStep(states[n], steps[n], states[n + 1], ask, noted, noted');
  }

  lemma {:induction false} JoinedOn(states: seq<Server>, steps: seq<Step>, m: nat, k: nat, n: nat, ask: Step)
    requires IsRun(states, steps) && m < k <= n < |states| && ask.Ask?
    requires JoinedNow(states, steps, m, k, ask) && AllOrderly(states, steps, n, ask.id)
    ensures JoinedNow(states, steps, m, n, ask)
    decreases n - k
  {
    if k < n {
      assert Orderly(states[k], steps[k], ask.id);
      JoinedAt(states, steps, m, k, ask);
      JoinedOn(states, steps, m, k + 1, n, ask);
    }
  }

  /** From the moment a prompt is asked, what is in its queue is a prefix of what was recorded for it. */
  lemma JoinedRun(states: seq<Server>, steps: seq<Step>, m: nat, n: nat)
    requires IsRun(states, steps) && m < n < |states| && steps[m].Ask? && AllOrderly(states, steps, n, steps[m].id)
    ensures Joined(states[n], steps[m], Bodies(Answers(steps, m, n)))
  {
    AskedAt(states, steps, m);
    JoinedOn(states, steps, m, m + 1, n, steps[m]);
  }

  // ----- What `say` returned, and what the log says -----

  ghost predicate SaidOk(s: Server, ask: Step, text: string, exit: Option<int>)
  {
    ask.Ask? && ask.h in s.reg.calls && s.reg.calls[ask.h].phase == Finished(Done(text, exit))
  }

  /** A prompt that is done heard its replies up to the first final one that was recorded. */
  lemma DoneHeard(log: seq<Logged>, call: Call, noted: seq<P.ReplyBody>, text: string, exit: Option<int>)
    requires CallOk(log, call) && call.kind == Prompt && call.phase == Finished(Done(text, exit))
    requires P.Replies(call.events) <= noted
    ensures exists j: nat :: FirstDone(noted, j) && P.Transcript(noted[..j]) == text && noted[j - 1].exit == exit
  {
    assert StoppedWith(call, Done(text, exit));
    EndedHeard(call.events, call.read - 1, noted);
  }

  /** When `say` returns a text, that is what was recorded up to the first final reply. */
  lemma SayHeard(states: seq<Server>, steps: seq<Step>, m: nat, n: nat, text: string, exit: Option<int>)
    requires IsRun(states, steps) && m < n < |states| && steps[m].Ask? && AllOrderly(states, steps, n, steps[m].id)
    requires SaidOk(states[n], steps[m], text, exit)
    ensures var heard := Bodies(Answers(steps, m, n));
            exists j: nat :: FirstDone(heard, j) && P.Transcript(heard[..j]) == text && heard[j - 1].exit == exit
  {
    JoinedRun(states, steps, m, n);
    InvRun(states, steps, n);
    var s := states[n];
    assert CallOk(s.reg.log, s.reg.calls[steps[m].h]);
    DoneHeard(s.reg.log, s.reg.calls[steps[m].h], Bodies(Answers(steps, m, n)), text, exit);
  }

  /**
   The log agrees with what `say` returned: the entry has a prefix of replies, ending at a first final
   one, that spells the returned text, if the prompt was saved and its file not wiped since, the final
   reply landed there, and so did every other reply with text in it. Without a second final reply, only if.
   */
  lemma SayAgreesWithLog(
    states: seq<Server>, steps: seq<Step>, m: nat, n: nat, text: string, exit: Option<int>, j: nat)
    requires IsRun(states, steps) && m < n < |states| && steps[m].Ask? && AllOrderly(states, steps, n, steps[m].id)
    requires SaidOk(states[n], steps[m], text, exit) && FirstDone(Bodies(Answers(steps, m, n)), j)
    ensures var answers := Answers(steps, m, n);
            var e := T.Lookup(states[n].files, T.SafeFilename(steps[m].session), steps[m].id);
            var whole := steps[m].disk.saves && !WipedSince(steps, m, n, steps[m]) && Whole(answers, j);
            && (whole ==> e.Some? && Tells(e.value, text, exit))
            && (OneEnd(answers, j) && e.Some? && Tells(e.value, text, exit) ==> whole)
  {
    SayHeard(states, steps, m, n, text, exit);
    LoggedRun(states, steps, m, n);
    var answers := Answers(steps, m, n);
    var heard := Bodies(answers);
    var k: nat :| FirstDone(heard, k) && P.Transcript(heard[..k]) == text && heard[k - 1].exit == exit;
    FirstDoneUnique(heard, j, k);
    var e := T.Lookup(states[n].files, T.SafeFilename(steps[m].session), steps[m].id);
    if e.Some? { TellsIff(e.value, answers, j); }
  }

  // ----- With no hypothesis at all -----

  /** Whatever is in a prompt's queue, or in a task's hand, for this id has been recorded. */
  ghost predicate Known(s: Server, id: Id, noted: seq<P.ReplyBody>)
  {
    && (forall d <- s.hand | s.hand[d].id == id :: s.hand[d].Reply? && s.hand[d].reply in noted)
    && (forall h <- s.reg.calls | s.reg.calls[h].id == id :: AllIn(P.Replies(s.reg.calls[h].events), noted))
  }

  ghost predicate AllIn(rs: seq<P.ReplyBody>, noted: seq<P.ReplyBody>)
  {
    forall r <- rs :: r in noted
  }

  lemma KnownReply(s: R.State, c: ConnId, id: Id, r: P.ReplyBody, h: CallId, noted: seq<P.ReplyBody>)
    requires IdsDistinct(s) && PendingOk(s) && R.Enabled(s, R.Handle(c, Reply(id, r), Prompt)) && h in s.calls
    requires AllIn(P.Replies(s.calls[h].events), noted) && s.calls[h].id == id && r in noted
    ensures var s' := R.DoHandle(s, c, Reply(id, r), Prompt);
            h in s'.calls && AllIn(P.Replies(s'.calls[h].events), noted)
  {
    P.TranscriptStep(s.calls[h].events, P.Reply(r));
    var token, slot := s.conns[c].token, Slot(Prompt, id);
    assert Find(s.entries, token, slot).Some? ==> WaiterOk(s, token, slot);
  }

  lemma KnownQueue(s: R.State, a: R.Action, h: CallId, noted: seq<P.ReplyBody>)
    requires Inv(s) && R.Enabled(s, a) && h in s.calls && AllIn(P.Replies(s.calls[h].events), noted)
    requires HandlesReply(a) && a.frame.id == s.calls[h].id ==> a.frame.reply in noted
    ensures h in R.Apply(s, a).calls && AllIn(P.Replies(R.Apply(s, a).calls[h].events), noted)
  {
    if HandlesReply(a) && a.frame.id == s.calls[h].id {
      KnownReply(s, a.c, a.frame.id, a.frame.reply, h, noted);
    } else {
      UnmovedStep(s, a, h);
    }
  }

  lemma KnownOther(s: Server, a: R.Action, id: Id, noted: seq<P.ReplyBody>)
    requires Known(s, id, noted) && Inv(s.reg) && Enabled(s, Other(a))
    ensures Known(Apply(s, Other(a)), id, noted)
  {
    CallsStep(s.reg, a);
    var reg' := R.Apply(s.reg, a);
    forall h <- reg'.calls | reg'.calls[h].id == id ensures AllIn(P.Replies(reg'.calls[h].events), noted) {
      if h in s.reg.calls {
        assert SameCall(s.reg.calls[h], reg'.calls[h]);
        KnownQueue(s.reg, a, h, noted);
      }
    }
  }

  lemma KnownAsk(s: Server, step: Step, id: Id, noted: seq<P.ReplyBody>)
    requires Known(s, id, noted) && step.Ask? && Enabled(s, step)
    ensures Known(Apply(s, step), id, noted)
  {
    assert P.Replies([]) == [];
  }

  lemma KnownNote(s: Server, step: Step, id: Id, noted: seq<P.ReplyBody>, noted': seq<P.ReplyBody>)
    requires Known(s, id, noted) && step.Note? && Enabled(s, step)
    requires noted' == if step.id == id then noted + [step.body] else noted
    ensures Known(Apply(s, step), id, noted')
  {
    forall h <- s.reg.calls | s.reg.calls[h].id == id ensures AllIn(P.Replies(s.reg.calls[h].events), noted') {
      assert AllIn(P.Replies(s.reg.calls[h].events), noted);
    }
  }

  lemma KnownStep(s: Server, step: Step, s': Server, id: Id, noted: seq<P.ReplyBody>, noted': seq<P.ReplyBody>)
    requires Known(s, id, noted) && Inv(s.reg) && Enabled(s, step) && s' == Apply(s, step)
    requires noted' == if step.Note? && step.id == id then noted + [step.body] else noted
    ensures Known(s', id, noted')
  {
    match step {
      case Ask(_, _, _, _, _, _, _) => KnownAsk(s, step, id, noted);
      case Note(_, _, _, _, _) => KnownNote(s, step, id, noted, noted');
      case Other(a) => KnownOther(s, a, id, noted);
    }
  }

  lemma NotedStep(steps: seq<Step>, n: nat, id: Id, file: string)
    requires n < |steps|
    ensures Bodies(Noted(steps[..n + 1], id, file)) ==
            if steps[n].Note? && steps[n].id == id then Bodies(Noted(steps[..n], id, file)) + [steps[n].body]
            else Bodies(Noted(steps[..n], id, file))
  {
    assert steps[..n + 1][..n] == steps[..n];
    assert Noted(steps[..n], id, file) + [] == Noted(steps[..n], id, file);
  }

  /**
   In every run, on however many connections the replies come: no reply reaches a prompt's queue, and
   so its returned text, that was not recorded first.
   */
  lemma {:induction false} SaidWasRecorded(states: seq<Server>, steps: seq<Step>, n: nat, id: Id, file: string)
    requires IsRun(states, steps) && n < |states|
    ensures Known(states[n], id, Bodies(Noted(steps[..n], id, file)))
  {
    if n > 0 {
      SaidWasRecorded(states, steps, n - 1, id, file);
      RecordedAt(states, steps, n - 1, id, file);
    }
  }

  lemma RecordedAt(states: seq<Server>, steps: seq<Step>, n: nat, id: Id, file: string)
    requires IsRun(states, steps) && n < |steps| && Known(states[n], id, Bodies(Noted(steps[..n], id, file)))
    ensures Known(states[n + 1], id, Bodies(Noted(steps[..n + 1], id, file)))
  {
    InvRun(states, steps, n);
    NotedStep(steps, n, id, file);
    KnownStep(
      states[n], steps[n], states[n + 1], id, Bodies(Noted(steps[..n], id, file)),
        Bodies(Noted(steps[..n + 1], id, file)));
  }
}
