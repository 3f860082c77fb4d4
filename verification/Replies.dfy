/** Questions and answers on a managing connection, from the daemon's log to the client's calls. */
module Replies {
  import opened Common
  import opened Frames
  import opened Pipeline
  import S = Sessions
  import D = Daemons

  /** The frames that carry a log. */
  function ReplyFrames(log: seq<D.Msg>, encode: D.Msg -> seq<byte>): (fs: seq<Frame>)
    ensures |fs| == |log|
  {
    seq(|log|, i requires 0 <= i < |log| => Frame(TYPE_CONTROL, 0, encode(log[i])))
  }

  function Payloads(log: seq<D.Msg>, encode: D.Msg -> seq<byte>): (ps: seq<seq<byte>>)
    ensures |ps| == |log|
  {
    seq(|log|, i requires 0 <= i < |log| => encode(log[i]))
  }

  lemma {:induction false} ReplyControls(log: seq<D.Msg>, encode: D.Msg -> seq<byte>)
    ensures Controls(ReplyFrames(log, encode)) == Payloads(log, encode)
  {
    if log != [] {
      ReplyControls(log[1..], encode);
      assert ReplyFrames(log, encode)[1..] == ReplyFrames(log[1..], encode);
      assert Payloads(log, encode) == [encode(log[0])] + Payloads(log[1..], encode);
    }
  }

  /** A reply to the question. */
  ghost predicate Reply(q: D.Question, reply: Result<seq<byte>, ReadError>, encode: D.Msg -> seq<byte>) {
    exists m :: D.Answers(q, m) && reply == Ok(encode(m))
  }

  /** Reply n is one to question n. */
  ghost predicate Answered(qs: seq<D.Question>, replies: seq<Result<seq<byte>, ReadError>>,
                           encode: D.Msg -> seq<byte>) {
    |replies| <= |qs| && forall n :: 0 <= n < |replies| ==> Reply(qs[n], replies[n], encode)
  }

  /** n calls, one after another, return the first n waiting payloads. */
  method CallTimes(conn: Stream, n: nat, ghost waiting: seq<seq<byte>>)
    returns (replies: seq<Result<seq<byte>, ReadError>>)
    requires n <= |waiting| && Controls(DecodeAll(conn.data).0) == waiting
    modifies conn
    ensures |replies| == n && forall j :: 0 <= j < n ==> replies[j] == Ok(waiting[j])
  {
    replies := [];
    AppendNothing(waiting);
    while |replies| < n
      invariant |replies| <= n && Controls(DecodeAll(conn.data).0) == waiting[|replies|..]
      invariant forall j :: 0 <= j < |replies| ==> replies[j] == Ok(waiting[j])
    {
      ghost var rest := waiting[|replies|..];
      var reply := Roundtrip(conn);
      assert reply == Ok(rest[0]) && rest[1..] == waiting[|replies| + 1..];
      replies := replies + [reply];
    }
  }

  lemma AlignedAnswers(qs: seq<D.Question>, log: seq<D.Msg>, replies: seq<Result<seq<byte>, ReadError>>,
                       encode: D.Msg -> seq<byte>)
    requires D.Aligned(qs, log) && |replies| <= |qs|
    requires forall j :: 0 <= j < |replies| ==> replies[j] == Ok(Payloads(log, encode)[j])
    ensures Answered(qs, replies, encode)
  {
    forall n | 0 <= n < |replies|
      ensures Reply(qs[n], replies[n], encode)
    {
      assert D.Answers(qs[n], log[n]);
    }
  }

  /**
   The calls of a client on a connection that never attaches: call n returns the answer to question n,
   and there is one for each question asked so far, whatever other clients do.
   */
  method CallAll(conn: Stream, n: nat, ghost states: seq<D.Daemon>, ghost events: seq<D.Event>, ghost k: nat,
                 ghost c: S.Conn, ghost encode: D.Msg -> seq<byte>)
    returns (replies: seq<Result<seq<byte>, ReadError>>)
    requires D.IsRun(states, events) && k < |states| && D.OnlyManages(events, k, c)
    requires var fs := ReplyFrames(D.Log(states[k].logs, c), encode); Sendable(fs) && conn.data == EncodeAll(fs)
    requires n <= |D.Asked(states, events, k, c)|
    modifies conn
    ensures |replies| == n && Answered(D.Asked(states, events, k, c), replies, encode)
  {
    ghost var log := D.Log(states[k].logs, c);
    D.RepliesAreAligned(states, events, k, c);
    StreamRoundTrip(ReplyFrames(log, encode));
    ReplyControls(log, encode);
    replies := CallTimes(conn, n, Payloads(log, encode));
    AlignedAnswers(D.Asked(states, events, k, c), log, replies, encode);
  }
}
