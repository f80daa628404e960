/**
 The receive loop of a `prompt` call (src/wire/registry.rs:658-725): one FIFO queue of events,
 partial replies accumulated into `pieces`, and the first terminal event deciding the outcome.
 */
module PromptLoop {
  import opened Prelude

  /** A `reply` frame's body (src/proto/mod.rs:268-280). */
  datatype ReplyBody = ReplyBody(session: string, text: Option<string>, chunks: seq<string>, done: bool,
    exit: Option<int>)

  datatype Event =
    | Reply(body: ReplyBody)
    | Err(error: string)
    | Cancelled

  datatype Outcome =
    | Done(text: string, exit: Option<int>)
    | Failed(error: string)
    | Interrupted
    | Disconnected

  /** The strings one reply contributes: its `text`, if any, and then its `chunks`. */
  function Pieces(r: ReplyBody): (p: seq<string>)
  {
    (if r.text.Some? then [r.text.value] else []) + r.chunks
  }

  /** What one reply says: its text, if it has one, and then its chunks. */
  function Words(r: ReplyBody): (text: string)
  {
    (if r.text.Some? then r.text.value else "") + Concat(r.chunks)
  }

  /** Everything said by a list of replies, in arrival order. */
  function Transcript(replies: seq<ReplyBody>): (text: string)
  {
    if replies == [] then "" else Transcript(replies[..|replies| - 1]) + Words(replies[|replies| - 1])
  }

  /** The pieces the loop collects from a reply spell what it says. */
  lemma PiecesSpell(r: ReplyBody)
    ensures Concat(Pieces(r)) == Words(r)
  {
    var text := if r.text.Some? then [r.text.value] else [];
    ConcatAppend(text, r.chunks);
    if r.text.Some? { ConcatOne(r.text.value); }
  }

  /** The replies among the events, in order. */
  function Replies(events: seq<Event>): (rs: seq<ReplyBody>)
  {
    if events == [] then [] else
      Replies(events[..|events| - 1]) +
      (if events[|events| - 1].Reply? then [events[|events| - 1].body] else [])
  }

  /** An event after which the loop listens no more. */
  predicate Terminal(e: Event)
  {
    e.Reply? ==> e.body.done
  }

  ghost predicate Quiet(events: seq<Event>)
  {
    forall e <- events :: !Terminal(e)
  }

  /**
   What the documentation promises, with no loop in it: `k` is where the exchange ended, and the
   outcome is read off the event there.
   */
  ghost predicate Verdict(events: seq<Event>, o: Outcome)
  {
    if Quiet(events) then o == Disconnected
    else exists k: nat :: EndsAt(events, k) && o == Judgement(events, k)
  }

  ghost predicate EndsAt(events: seq<Event>, k: nat)
  {
    k < |events| && Terminal(events[k]) && Quiet(events[..k])
  }

  ghost function Judgement(events: seq<Event>, k: nat): (o: Outcome)
    requires EndsAt(events, k)
  {
    match events[k]
    case Reply(r) => Done(Transcript(Replies(events[..k + 1])), r.exit)
    case Err(e) => Failed(e)
    case Cancelled => Interrupted
  }

  lemma QuietAt(events: seq<Event>, k: nat)
    requires k <= |events| && Quiet(events[..k])
    ensures forall i | 0 <= i < k :: !Terminal(events[i])
  {
    forall i | 0 <= i < k ensures !Terminal(events[i]) {
      assert events[..k][i] in events[..k];
    }
  }

  /** The verdict is unique, so the order of arrival alone decides. */
  lemma VerdictUnique(events: seq<Event>, a: Outcome, b: Outcome)
    requires Verdict(events, a) && Verdict(events, b)
    ensures a == b
  {
    if !Quiet(events) {
      var j: nat :| EndsAt(events, j) && a == Judgement(events, j);
      var k: nat :| EndsAt(events, k) && b == Judgement(events, k);
      QuietAt(events, j);
      QuietAt(events, k);
      assert j == k;
    }
  }

  // ----- The returned text, from the replies' own fields -----

  /** `words` are what the replies say, one by one: each one's text, or nothing, followed by its chunks. */
  predicate Saying(replies: seq<ReplyBody>, words: seq<string>)
  {
    |words| == |replies| && forall i | 0 <= i < |replies| :: Says(replies[i], words[i])
  }

  predicate Says(r: ReplyBody, words: string)
  {
    match r.text
    case Some(t) => words == t + Concat(r.chunks)
    case None => words == Concat(r.chunks)
  }

  lemma TranscriptNext(replies: seq<ReplyBody>, words: seq<string>, n: nat, next: nat)
    requires n < next == n + 1 <= |replies| == |words| && Says(replies[n], words[n])
    requires Transcript(replies[..n]) == Concat(words[..n])
    ensures Transcript(replies[..next]) == Concat(words[..next])
  {
    var rs, ws := replies[..next], words[..next];
    assert rs[..|rs| - 1] == replies[..n] && rs[|rs| - 1] == replies[n];
    assert ws[..|ws| - 1] == words[..n] && ws[|ws| - 1] == words[n];
    assert words[n] == Words(replies[n]);
  }

  lemma {:induction false} TranscriptUpTo(replies: seq<ReplyBody>, words: seq<string>, n: nat)
    requires n <= |replies| && Saying(replies, words)
    ensures Transcript(replies[..n]) == Concat(words[..n])
  {
    if n > 0 {
      TranscriptUpTo(replies, words, n - 1);
      assert Says(replies[n - 1], words[n - 1]);
      TranscriptNext(replies, words, n - 1, n);
    }
  }

  lemma TranscriptIsConcat(replies: seq<ReplyBody>, words: seq<string>)
    requires Saying(replies, words)
    ensures Transcript(replies) == Concat(words)
  {
    TranscriptUpTo(replies, words, |replies|);
    assert replies[..|replies|] == replies && words[..|replies|] == words;
  }

  /** An exchange that ended with a final reply is told as the concatenation of all its replies' words, in order. */
  lemma {:induction false} DoneText(events: seq<Event>, k: nat, words: seq<string>)
    requires EndsAt(events, k) && events[k].Reply? && Saying(Replies(events[..k + 1]), words)
    ensures Verdict(events, Done(Concat(words), events[k].body.exit))
  {
    TranscriptIsConcat(Replies(events[..k + 1]), words);
    assert events[k] in events;
    assert Judgement(events, k) == Done(Concat(words), events[k].body.exit);
  }

  /** A queue of replies alone holds just those replies. */
  lemma {:induction false} RepliesAre(replies: seq<ReplyBody>)
    ensures Replies(seq(|replies|, i requires 0 <= i < |replies| => Reply(replies[i]))) == replies
  {
    var events := seq(|replies|, i requires 0 <= i < |replies| => Reply(replies[i]));
    if replies != [] {
      var n := |replies| - 1;
      RepliesAre(replies[..n]);
      assert events[..n] == seq(n, i requires 0 <= i < n => Reply(replies[..n][i]));
    }
  }

  /** A prompt answered by one final reply returns that reply's text followed by its chunks. */
  lemma OneReply(session: string, t: string, chunks: seq<string>, exit: Option<int>)
    ensures Verdict([Reply(ReplyBody(session, Some(t), chunks, true, exit))], Done(t + Concat(chunks), exit))
    ensures Verdict([Reply(ReplyBody(session, None, chunks, true, exit))], Done(Concat(chunks), exit))
  {
    OneFinal(ReplyBody(session, Some(t), chunks, true, exit), t + Concat(chunks));
    OneFinal(ReplyBody(session, None, chunks, true, exit), Concat(chunks));
  }

  lemma OneFinal(r: ReplyBody, words: string)
    requires r.done && Saying([r], [words])
    ensures Verdict([Reply(r)], Done(words, r.exit))
  {
    var events := [Reply(r)];
    RepliesAre([r]);
    assert seq(1, i requires 0 <= i < 1 => Reply([r][i])) == events;
    assert events[..1] == events && events[..0] == [];
    ConcatOne(words);
    DoneText(events, 0, [words]);
  }

  /** What the loop does with one event when `pieces` has been collected so far. */
  datatype Progress = Listening(pieces: seq<string>) | Stopped(outcome: Outcome)

  function Absorb(pieces: seq<string>, e: Event): (p: Progress)
  {
    match e
    case Reply(r) =>
      if r.done then Stopped(Done(Concat(pieces + Pieces(r)), r.exit)) else Listening(pieces + Pieces(r))
    case Err(x) => Stopped(Failed(x))
    case Cancelled => Stopped(Interrupted)
  }

  /** One more event on the queue adds its text, if it is a reply, at the end. */
  lemma TranscriptStep(events: seq<Event>, e: Event)
    ensures Replies(events + [e]) == Replies(events) + (if e.Reply? then [e.body] else [])
    ensures Transcript(Replies(events + [e])) ==
            Transcript(Replies(events)) + (if e.Reply? then Words(e.body) else "")
  {
    assert (events + [e])[..|events|] == events;
    if e.Reply? {
      var rs := Replies(events);
      assert (rs + [e.body])[..|rs|] == rs;
    } else {
      assert Replies(events + [e]) == Replies(events);
      assert Transcript(Replies(events)) + "" == Transcript(Replies(events));
    }
  }

  /** Collected pieces spell the transcript of the events read, and keep doing so. */
  lemma AbsorbKeeps(events: seq<Event>, e: Event, pieces: seq<string>)
    requires Concat(pieces) == Transcript(Replies(events))
    ensures e.Reply? ==> Concat(pieces + Pieces(e.body)) == Transcript(Replies(events + [e]))
  {
    TranscriptStep(events, e);
    if e.Reply? {
      ConcatAppend(pieces, Pieces(e.body));
      PiecesSpell(e.body);
    }
  }

  /** `Absorb` stops exactly on a terminal event, and then with the verdict of the whole queue. */
  lemma AbsorbJudges(queue: seq<Event>, read: nat, pieces: seq<string>)
    requires read < |queue| && Quiet(queue[..read])
    requires Concat(pieces) == Transcript(Replies(queue[..read]))
    ensures Absorb(pieces, queue[read]).Stopped? <==> Terminal(queue[read])
    ensures Terminal(queue[read]) ==> Verdict(queue, Absorb(pieces, queue[read]).outcome)
    ensures !Terminal(queue[read]) ==>
              Quiet(queue[..read + 1]) &&
              Concat(Absorb(pieces, queue[read]).pieces) == Transcript(Replies(queue[..read + 1]))
  {
    var e := queue[read];
    assert queue[..read + 1] == queue[..read] + [e];
    AbsorbKeeps(queue[..read], e, pieces);
    if Terminal(e) {
      assert EndsAt(queue, read);
      assert e in queue;
      assert Absorb(pieces, e).outcome == Judgement(queue, read);
    }
  }

  /** One turn of the loop: a reply's pieces are pushed, and `done` stops it. */
  method Turn(pieces: seq<string>, e: Event) returns (p: Progress)
    ensures p == Absorb(pieces, e)
  {
    match e {
      case Reply(r) =>
        var collected := pieces;
        if r.text.Some? {
          collected := collected + [r.text.value];
        }
        collected := collected + r.chunks;
        assert collected == pieces + Pieces(r);
        if r.done {
          return Stopped(Done(Concat(collected), r.exit));
        }
        return Listening(collected);
      case Err(x) => return Stopped(Failed(x));
      case Cancelled => return Stopped(Interrupted);
    }
  }

  /**
   The loop itself. `queue` holds what was sent before the sender went away or the timer fired:
   the receiver drains it first, so a final reply already queued is never lost to a disconnect.
   */
  method Run(queue: seq<Event>) returns (o: Outcome)
    ensures Verdict(queue, o)
  {
    var pieces: seq<string> := [];
    var read := 0;
    while read < |queue|
      invariant read <= |queue| && Quiet(queue[..read])
      invariant Concat(pieces) == Transcript(Replies(queue[..read]))
    {
      AbsorbJudges(queue, read, pieces);
      var p := Turn(pieces, queue[read]);
      if p.Stopped? {
        return p.outcome;
      }
      pieces, read := p.pieces, read + 1;
    }
    assert queue[..read] == queue;
    return Disconnected;
  }
}
