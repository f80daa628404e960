/**
 One exchange, as the talk log tells it: the replies that were read for a prompt, those of them that
 landed in the prompt's own file, and when the latter spell the same text (src/wire/talklog.rs:93-160).
 */
module Exchange {
  import opened Prelude
  import P = PromptLoop
  import T = TalkLog

  /** A reply that was read, and whether recording it put it into the prompt's file. */
  datatype Recording = Recording(body: P.ReplyBody, lands: bool)

  function Bodies(answers: seq<Recording>): (rs: seq<P.ReplyBody>)
  {
    seq(|answers|, i requires 0 <= i < |answers| => answers[i].body)
  }

  /** The replies that landed, in order; the log keeps no session with them. */
  function Kept(answers: seq<Recording>): (kept: seq<P.ReplyBody>)
  {
    if answers == [] then [] else
      var a := answers[|answers| - 1];
      Kept(answers[..|answers| - 1]) + (if a.lands then [a.body.(session := "")] else [])
  }

  function Told(rec: T.TalkReply): (r: P.ReplyBody)
  {
    P.ReplyBody("", rec.text, rec.chunks, rec.done, rec.exit)
  }

  function Said(replies: seq<T.TalkReply>): (rs: seq<P.ReplyBody>)
  {
    seq(|replies|, i requires 0 <= i < |replies| => Told(replies[i]))
  }

  /** The exchange ends with the `j`-th reply. */
  predicate FirstDone(rs: seq<P.ReplyBody>, j: nat)
  {
    0 < j <= |rs| && rs[j - 1].done && forall i | 0 <= i < j - 1 :: !rs[i].done
  }

  /** The entry has replies up to a first final one, and they spell `text`. */
  ghost predicate Tells(e: T.TalkEntry, text: string, exit: Option<int>)
  {
    exists j: nat ::
      FirstDone(Said(e.replies), j) && P.Transcript(Said(e.replies)[..j]) == text && e.replies[j - 1].exit == exit
  }

  lemma FirstDoneUnique(rs: seq<P.ReplyBody>, j: nat, k: nat)
    requires FirstDone(rs, j) && FirstDone(rs, k)
    ensures j == k
  {
  }

  // ----- What a prompt that ended has heard -----

  lemma {:induction false} QuietReplies(events: seq<P.Event>)
    requires P.Quiet(events)
    ensures forall r <- P.Replies(events) :: !r.done
  {
    if events != [] {
      QuietReplies(events[..|events| - 1]);
      assert events[|events| - 1] in events;
    }
  }

  lemma {:induction false} RepliesPrefix(events: seq<P.Event>, k: nat)
    requires k <= |events|
    ensures P.Replies(events[..k]) <= P.Replies(events)
  {
    if k < |events| {
      var rest := events[..|events| - 1];
      RepliesPrefix(rest, k);
      assert rest[..k] == events[..k];
    } else {
      assert events[..k] == events;
    }
  }

  lemma PrefixEnds(before: seq<P.ReplyBody>, r: P.ReplyBody, whole: seq<P.ReplyBody>, noted: seq<P.ReplyBody>)
    requires before + [r] <= whole <= noted && r.done && forall x <- before :: !x.done
    ensures FirstDone(noted, |before| + 1) && noted[..|before| + 1] == before + [r] && noted[|before|] == r
  {
    assert forall i | 0 <= i < |before| :: before[i] in before && noted[i] == before[i];
  }

  /** A queue that ended with a final reply holds the recorded replies up to the first final one. */
  lemma EndedHeard(events: seq<P.Event>, k: nat, noted: seq<P.ReplyBody>)
    requires P.EndsAt(events, k) && events[k].Reply? && P.Replies(events) <= noted
    ensures var heard := P.Replies(events[..k + 1]);
            FirstDone(noted, |heard|) && noted[..|heard|] == heard && noted[|heard| - 1] == events[k].body
  {
    assert events[..k + 1] == events[..k] + [events[k]];
    P.TranscriptStep(events[..k], events[k]);
    QuietReplies(events[..k]);
    RepliesPrefix(events, k + 1);
    PrefixEnds(P.Replies(events[..k]), events[k].body, P.Replies(events), noted);
  }

  // ----- What the file's share tells -----

  lemma {:induction false} KeptPrefix(answers: seq<Recording>, j: nat)
    requires j <= |answers|
    ensures Kept(answers[..j]) <= Kept(answers)
  {
    if j < |answers| {
      var rest := answers[..|answers| - 1];
      KeptPrefix(rest, j);
      assert rest[..j] == answers[..j];
    } else {
      assert answers[..j] == answers;
    }
  }

  lemma {:induction false} KeptQuiet(answers: seq<Recording>)
    requires forall a <- answers :: a.body.done ==> !a.lands
    ensures forall r <- Kept(answers) :: !r.done
  {
    if answers != [] {
      KeptQuiet(answers[..|answers| - 1]);
      assert answers[|answers| - 1] in answers;
    }
  }

  /** A reply whose absence does not show. */
  predicate Harmless(a: Recording)
  {
    a.lands || P.Words(a.body) == ""
  }

  lemma SameTail(a: string, b: string, tail: string)
    ensures a + tail == b + tail <==> a == b
  {
    if a + tail == b + tail {
      assert a == (a + tail)[..|a|] && b == (b + tail)[..|b|];
    }
  }

  lemma TranscriptSnoc(rs: seq<P.ReplyBody>, r: P.ReplyBody)
    ensures P.Transcript(rs + [r]) == P.Transcript(rs) + P.Words(r)
  {
    assert (rs + [r])[..|rs|] == rs;
  }

  lemma KeptSnoc(answers: seq<Recording>, a: Recording)
    ensures Kept(answers + [a]) == if a.lands then Kept(answers) + [a.body.(session := "")] else Kept(answers)
    ensures Bodies(answers + [a]) == Bodies(answers) + [a.body]
  {
    assert (answers + [a])[..|answers|] == answers;
    assert Kept(answers) + [] == Kept(answers);
  }

  /** What landed spells the whole exactly when nothing with text in it went elsewhere. */
  lemma {:induction false} KeptTranscript(answers: seq<Recording>)
    ensures |P.Transcript(Kept(answers))| <= |P.Transcript(Bodies(answers))|
    ensures P.Transcript(Kept(answers)) == P.Transcript(Bodies(answers)) <==> forall a <- answers :: Harmless(a)
  {
    if answers != [] {
      var rest, a := answers[..|answers| - 1], answers[|answers| - 1];
      KeptTranscript(rest);
      TranscriptStep(rest, a);
      assert answers == rest + [a];
    }
  }

  lemma TranscriptStep(rest: seq<Recording>, a: Recording)
    requires |P.Transcript(Kept(rest))| <= |P.Transcript(Bodies(rest))|
    requires P.Transcript(Kept(rest)) == P.Transcript(Bodies(rest)) <==> forall x <- rest :: Harmless(x)
    ensures |P.Transcript(Kept(rest + [a]))| <= |P.Transcript(Bodies(rest + [a]))|
    ensures P.Transcript(Kept(rest + [a])) == P.Transcript(Bodies(rest + [a])) <==>
              forall x <- rest + [a] :: Harmless(x)
  {
    var own := P.Words(a.body);
    KeptSnoc(rest, a);
    TranscriptSnoc(Bodies(rest), a.body);
    assert (forall x <- rest + [a] :: Harmless(x)) <==> Harmless(a) && forall x <- rest :: Harmless(x);
    if a.lands {
      TranscriptSnoc(Kept(rest), a.body.(session := ""));
      assert P.Words(a.body.(session := "")) == P.Words(a.body);
      SameTail(P.Transcript(Kept(rest)), P.Transcript(Bodies(rest)), own);
    } else {
      assert own == "" ==> P.Transcript(Bodies(rest)) + own == P.Transcript(Bodies(rest));
    }
  }

  /** A final reply that landed ends the landed replies where it ended the exchange. */
  lemma KeptEnds(answers: seq<Recording>, j: nat)
    requires FirstDone(Bodies(answers), j) && answers[j - 1].lands
    ensures var kept, all := Kept(answers[..j]), Kept(answers);
            FirstDone(all, |kept|) && all[..|kept|] == kept && all[|kept| - 1].exit == answers[j - 1].body.exit
  {
    var before, last := answers[..j - 1], answers[j - 1];
    assert answers[..j] == before + [last];
    KeptSnoc(before, last);
    KeptPrefix(answers, j);
    assert forall i | 0 <= i < j - 1 :: !Bodies(answers)[i].done && answers[i].body == Bodies(answers)[i];
    KeptQuiet(before);
    var some := Kept(before);
    assert forall i | 0 <= i < |some| :: some[i] in some;
  }

  /** The final reply landed, and so did every other reply of the exchange that has any text. */
  predicate Whole(answers: seq<Recording>, j: nat)
    requires 0 < j <= |answers|
  {
    answers[j - 1].lands && forall a <- answers[..j] :: Harmless(a)
  }

  /** No final reply follows the one that ended the exchange. */
  predicate OneEnd(answers: seq<Recording>, j: nat)
  {
    forall i | j <= i < |answers| :: !answers[i].body.done
  }

  /**
   What an entry tells that holds the replies that landed: as long as one reply is final, the exchange
   exactly if it is whole.
   */
  lemma TellsIff(e: T.TalkEntry, answers: seq<Recording>, j: nat)
    requires Said(e.replies) == Kept(answers) && FirstDone(Bodies(answers), j)
    ensures var text, exit := P.Transcript(Bodies(answers)[..j]), answers[j - 1].body.exit;
            && (Whole(answers, j) ==> Tells(e, text, exit))
            && (OneEnd(answers, j) && Tells(e, text, exit) ==> Whole(answers, j))
  {
    var said, kept := Said(e.replies), Kept(answers[..j]);
    KeptTranscript(answers[..j]);
    assert Bodies(answers[..j]) == Bodies(answers)[..j];
    if answers[j - 1].lands {
      KeptEnds(answers, j);
      forall k: nat | FirstDone(said, k) ensures k == |kept| { FirstDoneUnique(said, k, |kept|); }
    } else if OneEnd(answers, j) {
      LoneEndElsewhere(answers, j);
      assert forall i | 0 <= i < |said| :: said[i] in said;
    }
  }

  lemma LoneEndElsewhere(answers: seq<Recording>, j: nat)
    requires FirstDone(Bodies(answers), j) && !answers[j - 1].lands && OneEnd(answers, j)
    ensures forall r <- Kept(answers) :: !r.done
  {
    assert forall i | 0 <= i < j - 1 :: !Bodies(answers)[i].done && answers[i].body == Bodies(answers)[i];
    KeptQuiet(answers);
  }
}
