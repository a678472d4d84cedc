/**
 Matching of lambda replies to waiting requests: a wait queue per connection, requests that
 are retried on other connections, and answers that are given at most once.
 */
module Replies {
  import opened Basics

  /** A request or connection, by identity. */
  type Rid = nat
  type Cid = nat

  /** What a reply is matched by; the connection id of the client does not count. */
  datatype Tag = Tag(cmd: string, reqId: string, chunkId: string)

  datatype Answer = Data(tag: Tag) | Missing | ConnectionClosed | Failed(message: string)

  /** A request with the answer it was given, if any. */
  datatype Req = Req(tag: Tag, answer: Option<Answer>)

  type Reqs = map<Rid, Req>

  /** The first answer counts. */
  function Settled(before: Option<Answer>, a: Answer): Option<Answer> {
    if before.Some? then before else Some(a)
  }

  /** `Request.SetResponse` on one request. */
  function Answered(reqs: Reqs, r: Rid, a: Answer): Reqs
    requires r in reqs
  {
    reqs[r := reqs[r].(answer := Settled(reqs[r].answer, a))]
  }

  /** Answers every request of a queue in the same way. */
  function AnswerAll(reqs: Reqs, queue: seq<Rid>, a: Answer): (after: Reqs)
    requires forall r :: r in queue ==> r in reqs
    ensures after.Keys == reqs.Keys
    ensures forall r :: r in reqs ==>
              after[r] == if r in queue then reqs[r].(answer := Settled(reqs[r].answer, a)) else reqs[r]
  {
    if queue == [] then reqs else AnswerAll(Answered(reqs, queue[0], a), queue[1..], a)
  }

  /** The tags of waiting requests. */
  function Tags(reqs: Reqs, queue: seq<Rid>): (tags: seq<Tag>)
    requires forall r :: r in queue ==> r in reqs
  {
    seq(|queue|, i requires 0 <= i < |queue| => reqs[queue[i]].tag)
  }

  /** The index of the first waiting request that the reply is for, or the length of the queue. */
  function Match(waiting: seq<Tag>, tag: Tag): (i: nat)
    ensures i <= |waiting|
    ensures i < |waiting| ==> waiting[i] == tag
    ensures forall j :: 0 <= j < i ==> waiting[j] != tag
  {
    if waiting == [] || waiting[0] == tag then 0 else 1 + Match(waiting[1..], tag)
  }

  // ---- the system -----------------------------------------------------------------

  /**
   `queue`: requests waiting for a reply on each connection. `flight`: the request that was put
   on a connection and is being flushed. `pending`: requests between two attempts.
   */
  datatype State = State(
    reqs: Reqs, queue: map<Cid, seq<Rid>>, flight: map<Cid, Rid>, pending: set<Rid>, closed: set<Cid>)

  datatype Step =
    | Begin(r: Rid, tag: Tag)
    | Open(c: Cid)
    | Push(c: Cid, r: Rid)
    | FlushOk(c: Cid)
    | FlushFails(c: Cid)
    | GiveUp(r: Rid, message: string)
    | Reply(c: Cid, tag: Tag)
    | ErrorReply(c: Cid, message: string)
    | Close(c: Cid)

  predicate Enabled(s: State, step: Step) {
    match step
    case Begin(r, _) => r !in s.reqs
    case Open(c) => c !in s.queue
    case Push(c, r) => c in s.queue && s.queue[c] == [] && c !in s.flight && r in s.pending
    case FlushOk(c) => c in s.flight && c !in s.closed
    case FlushFails(c) => c in s.flight && c in s.queue
    case GiveUp(r, _) => r in s.pending && r in s.reqs
    case Reply(c, _) => c in s.queue && Known(s, c)
    case ErrorReply(c, _) => c in s.queue && Known(s, c)
    case Close(c) => c in s.queue && Known(s, c)
  }

  predicate Known(s: State, c: Cid)
    requires c in s.queue
  {
    forall r :: r in s.queue[c] ==> r in s.reqs
  }

  function Next(s: State, step: Step): State
    requires Enabled(s, step)
  {
    match step
    case Begin(r, tag) => s.(reqs := s.reqs[r := Req(tag, None)], pending := s.pending + {r})
    case Open(c) => s.(queue := s.queue[c := []])
    case Push(c, r) => s.(queue := s.queue[c := [r]], flight := s.flight[c := r], pending := s.pending - {r})
    case FlushOk(c) => s.(flight := s.flight - {c})
    case FlushFails(c) =>
      s.(queue := s.queue[c := if s.queue[c] == [] then [] else s.queue[c][1..]],
         flight := s.flight - {c}, pending := s.pending + {s.flight[c]})
    case GiveUp(r, message) => s.(reqs := Answered(s.reqs, r, Failed(message)), pending := s.pending - {r})
    case Reply(c, tag) => Replied(s, c, tag)
    case ErrorReply(c, message) =>
      if s.queue[c] == [] then s
      else s.(reqs := Answered(s.reqs, s.queue[c][0], Failed(message)), queue := s.queue[c := s.queue[c][1..]])
    case Close(c) =>
      s.(reqs := AnswerAll(s.reqs, s.queue[c], ConnectionClosed), queue := s.queue[c := []], closed := s.closed + {c})
  }

  /** `Connection.SetResponse`: requests ahead of the match are passed over, the match gets the data. */
  function Replied(s: State, c: Cid, tag: Tag): State
    requires c in s.queue && Known(s, c)
  {
    var queue := s.queue[c];
    var i := Match(Tags(s.reqs, queue), tag);
    assert forall r :: r in queue[..i] ==> r in queue;
    var passed := AnswerAll(s.reqs, queue[..i], Missing);
    if i == |queue| then s.(reqs := passed, queue := s.queue[c := []])
    else s.(reqs := Answered(passed, queue[i], Data(tag)), queue := s.queue[c := queue[i + 1..]])
  }

  // ---- what the steps do ----------------------------------------------------------

  /** Only the given requests are touched. */
  predicate OthersKept(s: State, t: State, touched: seq<Rid>) {
    t.reqs.Keys == s.reqs.Keys && forall r :: r in s.reqs && r !in touched ==> t.reqs[r] == s.reqs[r]
  }

  /**
   A reply, for a queue of any length: the first waiting request with its tag gets the data, those
   ahead of it a missing response, and those behind it go on waiting; with no such request all get a
   missing response. An answer that was given before stands.
   */
  lemma ReplyEffect(s: State, c: Cid, tag: Tag)
    requires c in s.queue && Known(s, c) && Distinct(s.queue[c])
    ensures var t, queue := Next(s, Reply(c, tag)), s.queue[c];
            var i := Match(Tags(s.reqs, queue), tag);
            && t.queue == s.queue[c := if i == |queue| then [] else queue[i + 1..]]
            && t.flight == s.flight && t.pending == s.pending && t.closed == s.closed && OthersKept(s, t, queue)
            && forall j :: 0 <= j < |queue| ==>
                 var before := s.reqs[queue[j]];
                 t.reqs[queue[j]] == if j < i then before.(answer := Settled(before.answer, Missing))
                                     else if j == i then before.(answer := Settled(before.answer, Data(tag)))
                                     else before
  {
    var queue := s.queue[c];
    var i := Match(Tags(s.reqs, queue), tag);
    assert forall j :: 0 <= j < |queue| ==> (queue[j] in queue[..i] <==> j < i);
  }

  /** In particular, the waiting request that the reply is for gets the data, and is no longer waiting. */
  lemma ReplyGives(s: State, c: Cid, tag: Tag, r: Rid)
    requires c in s.queue && s.queue[c] == [r] && r in s.reqs && s.reqs[r].answer.None?
    ensures var t := Next(s, Reply(c, tag));
            && t.queue[c] == [] && r in t.reqs && t.reqs[r].tag == s.reqs[r].tag
            && t.reqs[r].answer == Some(if s.reqs[r].tag == tag then Data(tag) else Missing)
  {
    ReplyEffect(s, c, tag);
    assert Tags(s.reqs, [r]) == [s.reqs[r].tag];
  }

  /** An error goes to the oldest waiting request. */
  lemma ErrorEffect(s: State, c: Cid, message: string)
    requires c in s.queue && Known(s, c) && s.queue[c] != []
    ensures var t, r := Next(s, ErrorReply(c, message)), s.queue[c][0];
            && t.queue == s.queue[c := s.queue[c][1..]] && OthersKept(s, t, [r])
            && t.reqs[r] == s.reqs[r].(answer := Settled(s.reqs[r].answer, Failed(message)))
            && t.flight == s.flight && t.pending == s.pending && t.closed == s.closed
  {
  }

  /** A close empties the queue and tells everyone in it. */
  lemma CloseEffect(s: State, c: Cid)
    requires c in s.queue && Known(s, c)
    ensures var t := Next(s, Close(c));
            && t.queue == s.queue[c := []] && t.closed == s.closed + {c} && OthersKept(s, t, s.queue[c])
            && (forall r :: r in s.queue[c] ==>
                  t.reqs[r] == s.reqs[r].(answer := Settled(s.reqs[r].answer, ConnectionClosed)))
            && t.flight == s.flight && t.pending == s.pending
  {
  }

  /** A request is sent on one connection, and comes back for another attempt, or for an error, if sending fails. */
  lemma SendEffect(s: State, c: Cid, r: Rid, message: string)
    requires Enabled(s, Push(c, r)) && r in s.reqs
    ensures var t := Next(s, Push(c, r));
            && t.queue[c] == [r] && r !in t.pending && t.reqs == s.reqs && Enabled(t, FlushFails(c))
            && var f := Next(t, FlushFails(c));
            && f.queue[c] == [] && c !in f.flight && r in f.pending && f.reqs == s.reqs
            && Enabled(f, GiveUp(r, message))
            && var g := Next(f, GiveUp(r, message));
            && r !in g.pending && OthersKept(s, g, [r])
            && g.reqs[r] == s.reqs[r].(answer := Settled(s.reqs[r].answer, Failed(message)))
  {
  }

  /** A new request has no answer and waits to be sent; a new connection has nobody waiting; a sent request waits on. */
  lemma StartEffect(s: State, r: Rid, tag: Tag, c: Cid)
    ensures r !in s.reqs ==>
              var t := Next(s, Begin(r, tag));
              r in t.pending && t.reqs == s.reqs[r := Req(tag, None)] && t.queue == s.queue
    ensures c !in s.queue ==> Next(s, Open(c)).queue == s.queue[c := []] && Next(s, Open(c)).reqs == s.reqs
    ensures Enabled(s, FlushOk(c)) ==>
              var t := Next(s, FlushOk(c)); c !in t.flight && t.queue == s.queue && t.reqs == s.reqs
  {
  }

  // ---- invariants -----------------------------------------------------------------

  /** The request is answered, waits on an open connection, is being sent, or is about to be retried. */
  ghost predicate Accounted(s: State, r: Rid)
    requires r in s.reqs
  {
    || s.reqs[r].answer.Some?
    || r in s.pending
    || (exists c :: c in s.flight && s.flight[c] == r)
    || (exists c :: c in s.queue && c !in s.closed && r in s.queue[c])
  }

  /** Data was only given to a request with the same command, request id and chunk id. */
  predicate Matched(req: Req) {
    req.answer.Some? && req.answer.value.Data? ==> req.answer.value.tag == req.tag
  }

  ghost predicate Inv(s: State) {
    && (forall c :: c in s.queue ==> |s.queue[c]| <= 1 && Known(s, c))
    && (forall c :: c in s.flight ==>
          && c in s.queue && s.flight[c] in s.reqs
          && (s.queue[c] == [s.flight[c]] || (s.queue[c] == [] && s.reqs[s.flight[c]].answer.Some?)))
    && (forall c :: c in s.closed && c in s.queue && c !in s.flight ==> s.queue[c] == [])
    && (forall r :: r in s.pending ==> r in s.reqs)
    && (forall r :: r in s.reqs ==> Accounted(s, r))
    && (forall r :: r in s.reqs ==> Matched(s.reqs[r]))
  }

  function Init(): State {
    State(map[], map[], map[], {}, {})
  }

  /** Requests keep their tags, and an answer once given stays. */
  ghost predicate AnswersKept(s: State, t: State) {
    forall r :: r in s.reqs ==>
      r in t.reqs && t.reqs[r].tag == s.reqs[r].tag && (s.reqs[r].answer.Some? ==> t.reqs[r].answer == s.reqs[r].answer)
  }

  lemma StepKeepsAnswers(s: State, step: Step)
    requires Enabled(s, step)
    ensures AnswersKept(s, Next(s, step))
  {
  }

  /** The steps of a connection's reader: the queue of c is untouched or emptied, and whoever left it is answered. */
  ghost predicate Drained(s: State, t: State, c: Cid) {
    && c in s.queue && c in t.queue && t.queue == s.queue[c := t.queue[c]]
    && (t.queue[c] == s.queue[c] || t.queue[c] == [])
    && t.flight == s.flight && t.pending == s.pending && t.reqs.Keys == s.reqs.Keys
    && (t.closed == s.closed || (t.closed == s.closed + {c} && t.queue[c] == []))
    && (forall r :: r in s.reqs && r !in s.queue[c] ==> t.reqs[r] == s.reqs[r])
    && (forall r :: r in s.queue[c] && r !in t.queue[c] ==> r in t.reqs && t.reqs[r].answer.Some?)
    && (forall r :: r in s.queue[c] && r in s.reqs ==>
          && t.reqs[r].tag == s.reqs[r].tag
          && (s.reqs[r].answer.Some? ==> t.reqs[r] == s.reqs[r])
          && (Matched(s.reqs[r]) ==> Matched(t.reqs[r])))
  }

  lemma ReplyDrains(s: State, c: Cid, tag: Tag)
    requires c in s.queue && Known(s, c) && |s.queue[c]| <= 1
    ensures Drained(s, Replied(s, c, tag), c)
  {
    if s.queue[c] != [] {
      assert s.queue[c] == [s.queue[c][0]];
      assert s.queue[c][..0] == [] && s.queue[c][..1] == s.queue[c];
    }
  }

  lemma StepDrains(s: State, step: Step)
    requires Inv(s) && Enabled(s, step) && (step.Reply? || step.ErrorReply? || step.Close?)
    ensures Drained(s, Next(s, step), step.c)
    ensures step.Close? ==> Next(s, step).queue[step.c] == []
  {
    if step.Reply? {
      ReplyDrains(s, step.c, step.tag);
    }
  }

  /** A request that a reply, an error reply or a close takes from a queue has been answered. */
  lemma TakenAreAnswered(s: State, step: Step, c: Cid, r: Rid)
    requires Inv(s) && Enabled(s, step) && (step.Reply? || step.ErrorReply? || step.Close?)
    requires c in s.queue && r in s.queue[c]
    ensures var t := Next(s, step);
            c in t.queue && (r in t.queue[c] || (r in t.reqs && t.reqs[r].answer.Some?))
  {
    StepDrains(s, step);
  }

  /** A request that a step leaves without an answer is still accounted for, if its whereabouts are unchanged. */
  lemma StillAccounted(s: State, t: State, r: Rid)
    requires r in s.reqs && r in t.reqs && Accounted(s, r)
    requires t.reqs[r].answer.None? ==>
               && (r in s.pending ==> r in t.pending)
               && (forall c :: c in s.flight && s.flight[c] == r ==> c in t.flight && t.flight[c] == r)
               && (forall c :: c in s.queue && c !in s.closed && r in s.queue[c] ==>
                     c in t.queue && c !in t.closed && r in t.queue[c])
    requires s.reqs[r].answer.Some? ==> t.reqs[r].answer.Some?
    ensures Accounted(t, r)
  {
  }

  lemma SendInv(s: State, step: Step)
    requires Inv(s) && Enabled(s, step) && (step.Begin? || step.Open? || step.GiveUp?)
    ensures Inv(Next(s, step))
  {
    var t := Next(s, step);
    forall r | r in t.reqs ensures Accounted(t, r) {
      if r in s.reqs {
        StillAccounted(s, t, r);
      }
    }
  }

  lemma PushInv(s: State, step: Step)
    requires Inv(s) && Enabled(s, step) && step.Push?
    ensures Inv(Next(s, step))
  {
    var t := Next(s, step);
    forall r | r in t.reqs ensures Accounted(t, r) {
      if step.r == r {
        assert t.flight[step.c] == r;
      } else {
        StillAccounted(s, t, r);
      }
    }
  }

  lemma FlushInv(s: State, step: Step)
    requires Inv(s) && Enabled(s, step) && (step.FlushOk? || step.FlushFails?)
    ensures Inv(Next(s, step))
  {
    var t, sent := Next(s, step), s.flight[step.c];
    forall r | r in t.reqs ensures Accounted(t, r) {
      if r == sent {
        if step.FlushOk? && t.reqs[r].answer.None? {
          assert r in t.queue[step.c];
        }
      } else {
        StillAccounted(s, t, r);
      }
    }
  }

  lemma DrainInv(s: State, t: State, c: Cid)
    requires Inv(s) && Drained(s, t, c)
    ensures Inv(t)
  {
    forall r | r in t.reqs ensures Accounted(t, r) {
      StillAccounted(s, t, r);
    }
  }

  /** Every step keeps the invariant. */
  lemma StepInv(s: State, step: Step)
    requires Inv(s) && Enabled(s, step)
    ensures Inv(Next(s, step))
  {
    if step.Reply? || step.ErrorReply? || step.Close? {
      StepDrains(s, step);
      DrainInv(s, Next(s, step), step.c);
    } else if step.FlushOk? || step.FlushFails? {
      FlushInv(s, step);
    } else if step.Push? {
      PushInv(s, step);
    } else {
      SendInv(s, step);
    }
  }

  ghost predicate IsRun(trace: seq<State>, steps: seq<Step>) {
    && |trace| == |steps| + 1 && trace[0] == Init()
    && forall i :: 0 <= i < |steps| ==> Enabled(trace[i], steps[i]) && trace[i + 1] == Next(trace[i], steps[i])
  }

  /** In every state of every run, data reached matching requests only, and no request is lost. */
  lemma {:induction false} RunInv(trace: seq<State>, steps: seq<Step>, i: nat)
    requires IsRun(trace, steps) && i <= |steps|
    ensures Inv(trace[i])
  {
    if i > 0 {
      RunInv(trace, steps, i - 1);
      StepInv(trace[i - 1], steps[i - 1]);
    }
  }

  /** The states of a run, as far as answers go. */
  ghost predicate KeepsAnswers(trace: seq<State>) {
    forall i :: 0 <= i < |trace| - 1 ==> AnswersKept(trace[i], trace[i + 1])
  }

  lemma RunKeepsAnswers(trace: seq<State>, steps: seq<Step>)
    requires IsRun(trace, steps)
    ensures KeepsAnswers(trace)
  {
    forall i | 0 <= i < |steps| ensures AnswersKept(trace[i], trace[i + 1]) {
      StepKeepsAnswers(trace[i], steps[i]);
    }
  }

  lemma {:induction false} AnswerStands(trace: seq<State>, i: nat, j: nat, r: Rid)
    requires KeepsAnswers(trace) && i <= j < |trace|
    requires r in trace[i].reqs && trace[i].reqs[r].answer.Some?
    ensures r in trace[j].reqs && trace[j].reqs[r] == trace[i].reqs[r]
    decreases j - i
  {
    if i < j {
      AnswerStands(trace, i, j - 1, r);
      assert AnswersKept(trace[j - 1], trace[j - 1 + 1]);
    }
  }

  /** At most one answer: across replies, errors, closes and retries elsewhere, the first one stands. */
  lemma AnsweredOnce(trace: seq<State>, steps: seq<Step>, i: nat, j: nat, r: Rid)
    requires IsRun(trace, steps) && i <= j <= |steps|
    requires r in trace[i].reqs && trace[i].reqs[r].answer.Some?
    ensures r in trace[j].reqs && trace[j].reqs[r] == trace[i].reqs[r]
  {
    RunKeepsAnswers(trace, steps);
    AnswerStands(trace, i, j, r);
  }

  // ---- as written -----------------------------------------------------------------

  /** A client request; `sent` is what went to the client's response channel. */
  class Request {
    const tag: Tag
    const wanted: bool
    var responded: bool
    var sent: seq<Answer>
    ghost var answer: Option<Answer>

    ghost predicate Valid()
      reads this
    {
      && (responded <==> answer.Some?)
      && sent == (if wanted && answer.Some? then [answer.value] else [])
      && Matched(Req(tag, answer))
    }

    constructor (tag: Tag, wanted: bool)
      ensures Valid() && this.tag == tag && this.wanted == wanted && answer.None?
    {
      this.tag, this.wanted, responded, sent, answer := tag, wanted, false, [], None;
    }

    /** `SetResponse`: answers once; the response channel is used for that one answer only. */
    method SetResponse(a: Answer) returns (ok: bool)
      requires Valid() && (a.Data? ==> a.tag == tag)
      modifies this
      ensures Valid() && ok == old(answer).None?
      ensures answer == if ok then Some(a) else old(answer)
    {
      if responded {
        return false;
      }
      responded, answer := true, Some(a);
      if wanted {
        sent := sent + [a];
      }
      return true;
    }
  }

  function QueueTags(waiting: seq<Request>): (tags: seq<Tag>)
    ensures |tags| == |waiting|
  {
    seq(|waiting|, i requires 0 <= i < |waiting| => waiting[i].tag)
  }

  /** The first match is the only index that is one. */
  lemma MatchIs(waiting: seq<Tag>, tag: Tag, i: nat)
    requires i <= |waiting| && (i < |waiting| ==> waiting[i] == tag)
    requires forall j :: 0 <= j < i ==> waiting[j] != tag
    ensures Match(waiting, tag) == i
  {
  }

  class Connection {
    var chanWait: seq<Request>

    ghost predicate Valid()
      reads this, chanWait
    {
      && (forall i :: 0 <= i < |chanWait| ==> chanWait[i].Valid())
      && (forall i, j :: 0 <= i < j < |chanWait| ==> chanWait[i] != chanWait[j])
    }

    /** Takes the oldest request from the queue and answers it. */
    method Pop(a: Answer) returns (req: Request, ok: bool)
      requires Valid() && chanWait != [] && (a.Data? ==> a.tag == chanWait[0].tag)
      modifies this, chanWait[0]
      ensures Valid() && req.Valid() && req == old(chanWait[0]) && chanWait == old(chanWait[1..])
      ensures ok == old(chanWait[0].answer).None? && req.answer == Settled(old(chanWait[0].answer), a)
    {
      req := chanWait[0];
      chanWait := chanWait[1..];
      ok := req.SetResponse(a);
    }

    /** The loop of `SetResponse` up to the request that the reply is for. */
    method PassOver(tag: Tag)
      requires Valid()
      modifies this, chanWait
      ensures Valid() && forall r :: r in old(chanWait) ==> r.Valid()
      ensures var i := Match(QueueTags(old(chanWait)), tag);
              && chanWait == old(chanWait)[i..]
              && (forall j :: 0 <= j < i ==> old(chanWait)[j].answer == Settled(old(chanWait[j].answer), Missing))
      ensures forall r :: r in chanWait ==> r.answer == old(r.answer)
    {
      ghost var all := chanWait;
      ghost var i := 0;
      while chanWait != [] && chanWait[0].tag != tag
        invariant 0 <= i <= |all| && chanWait == all[i..]
        invariant forall r :: r in all ==> r.Valid()
        invariant forall j :: 0 <= j < i ==> all[j].tag != tag && all[j].answer == Settled(old(all[j].answer), Missing)
        invariant forall j :: i <= j < |all| ==> all[j].answer == old(all[j].answer)
        decreases |chanWait|
      {
        var _, _ := Pop(Missing);
        i := i + 1;
      }
      MatchIs(QueueTags(all), tag, i);
    }

    /** `SetResponse`: passes over requests that the reply is not for and answers the one it is for. */
    method SetResponse(tag: Tag) returns (req: Request?, ok: bool)
      requires Valid()
      modifies this, chanWait
      ensures Valid() && forall r :: r in old(chanWait) ==> r.Valid()
      ensures var i := Match(QueueTags(old(chanWait)), tag);
              && chanWait == (if i == |old(chanWait)| then [] else old(chanWait)[i + 1..])
              && req == (if i == |old(chanWait)| then null else old(chanWait)[i])
              && (forall j :: 0 <= j < i ==> old(chanWait)[j].answer == Settled(old(chanWait[j].answer), Missing))
      ensures req == null ==> !ok
      ensures req != null ==> ok == old(req.answer).None? && req.answer == Settled(old(req.answer), Data(tag))
      ensures forall r :: r in chanWait ==> r.answer == old(r.answer)
    {
      PassOver(tag);
      if chanWait == [] {
        return null, false;
      }
      req, ok := Pop(Data(tag));
    }

    /** `SetErrorResponse`: the oldest waiting request gets the error. */
    method SetErrorResponse(message: string)
      requires Valid()
      modifies this, chanWait
      ensures Valid()
      ensures old(chanWait) == [] ==> chanWait == []
      ensures old(chanWait) != [] ==>
                && chanWait == old(chanWait)[1..] && old(chanWait)[0].Valid()
                && old(chanWait)[0].answer == Settled(old(chanWait[0].answer), Failed(message))
      ensures forall r :: r in chanWait ==> r.answer == old(r.answer)
    {
      if chanWait != [] {
        var _, _ := Pop(Failed(message));
      }
    }

    /** `clearResponses`: a closed connection's queue is drained, and every request in it answered. */
    method ClearResponses()
      requires Valid()
      modifies this, chanWait
      ensures Valid() && chanWait == []
      ensures forall r :: r in old(chanWait) ==> r.Valid() && r.answer == Settled(old(r.answer), ConnectionClosed)
    {
      ghost var all := chanWait;
      ghost var i := 0;
      while chanWait != []
        invariant 0 <= i <= |all| && chanWait == all[i..]
        invariant forall r :: r in all ==> r.Valid()
        invariant forall j :: 0 <= j < i ==> all[j].answer == Settled(old(all[j].answer), ConnectionClosed)
        invariant forall j :: i <= j < |all| ==> all[j].answer == old(all[j].answer)
        decreases |chanWait|
      {
        var _, _ := Pop(ConnectionClosed);
        i := i + 1;
      }
    }
  }

  const MAX_RETRY := 3

  /** The first attempt that the loop stops at, or n. */
  function Through(stops: seq<bool>, n: nat): (k: nat)
    requires n <= |stops|
    ensures k <= n && (k < n ==> stops[k]) && forall j :: 0 <= j < k ==> !stops[j]
  {
    if n == 0 then 0
    else var k := Through(stops, n - 1); if k < n - 1 || stops[n - 1] then k else n
  }

  /** An attempt waits while the queue is occupied; otherwise the request is sent, or sending fails. */
  datatype Attempt = Blocked | Sent | SendFailed

  /**
   The queueing part of `handleRequest`: waits on the connection, and leaves it again if sending
   fails. Nothing happens as long as another request occupies the queue.
   */
  method HandleRequest(conn: Connection, req: Request, flushed: bool) returns (outcome: Attempt)
    modifies conn
    ensures outcome == if old(conn.chanWait) != [] then Blocked else if flushed then Sent else SendFailed
    ensures conn.chanWait == if outcome.Sent? then [req] else old(conn.chanWait)
  {
    if conn.chanWait != [] {
      return Blocked;
    }
    conn.chanWait := conn.chanWait + [req];
    if !flushed {
      if conn.chanWait != [] {
        conn.chanWait := conn.chanWait[1..];
      }
      return SendFailed;
    }
    return Sent;
  }

  /** The attempts that the loop does not go beyond: the queue is occupied, or the request is sent. */
  function Stops(conns: seq<Connection>, flushed: seq<bool>): (r: seq<bool>)
    requires |conns| == |flushed|
    reads conns
    ensures |r| == |conns| && forall i :: 0 <= i < |conns| ==> (r[i] <==> flushed[i] || conns[i].chanWait != [])
  {
    seq(|conns|, i requires 0 <= i < |conns| reads conns => flushed[i] || conns[i].chanWait != [])
  }

  /** A request that can be retried and whose first sending fails goes to the second connection, if that is free. */
  lemma SecondAttempt(conns: seq<Connection>, flushed: seq<bool>)
    requires |conns| == |flushed| == MAX_RETRY && !flushed[0] && conns[0].chanWait == [] && flushed[1]
    ensures Through(Stops(conns, flushed), MAX_RETRY) == 1
  {
    assert !Stops(conns, flushed)[0] && Stops(conns, flushed)[1];
  }

  /**
   The retry loop of `HandleRequests` when nobody interferes: the request ends up waiting on the
   first connection that takes it and nowhere else, or it is answered with the error after the
   last attempt. It waits at the first connection whose queue is occupied.
   */
  method Serve(conns: seq<Connection>, req: Request, flushed: seq<bool>, retriable: bool, message: string)
    returns (blocked: bool)
    requires |conns| == |flushed| == MAX_RETRY && req.Valid()
    modifies conns, req
    ensures req.Valid()
    ensures var n := if retriable then MAX_RETRY else 1;
            var k := Through(old(Stops(conns, flushed)), n);
            && blocked == (k < n && old(conns[k].chanWait) != [])
            && req.answer == (if k < n then old(req.answer) else Settled(old(req.answer), Failed(message)))
            && forall c :: c in conns ==>
                 c.chanWait == if k < n && !blocked && c == conns[k] then [req] else old(c.chanWait)
  {
    var retries := if retriable then MAX_RETRY else 1;
    ghost var stops := Stops(conns, flushed);
    for i := 0 to retries
      invariant req.Valid() && req.answer == old(req.answer)
      invariant forall j :: 0 <= j < i ==> !stops[j]
      invariant forall c :: c in conns ==> c.chanWait == old(c.chanWait)
    {
      var outcome := HandleRequest(conns[i], req, flushed[i]);
      if !outcome.SendFailed? {
        assert Through(stops, retries) == i;
        return outcome.Blocked?;
      }
    }
    assert Through(stops, retries) == retries;
    var _ := req.SetResponse(Failed(message));
    return false;
  }
}
