/**
 * What a render-pass encoder has bound when it records a draw. Replaying a
 * call log through `Replay` gives the encoder state after it, and `Draws`
 * lists the state in force at each draw, so that properties of a pass can
 * be stated as "every draw sees this pipeline and these bind groups"
 * instead of as positions in the log.
 */
module Encoders {
  import opened Outcomes
  import opened Gpu

  /** The encoder state that matters to a draw: pipeline, bind groups 0 and 1, index buffer and vertex buffer 0. */
  datatype EncState = EncState(
    pipeline: Option<Id>,
    group0: Option<Id>,
    group1: Option<Id>,
    indexBuffer: Option<Id>,
    vertexBuffer0: Option<Id>)

  /** A freshly begun render pass has nothing bound. */
  const Unbound: EncState := EncState(None, None, None, None, None)

  /** The effect of one call on the encoder state. */
  function Effect(st: EncState, c: Call): (r: EncState)
    ensures c.BeginPass? ==> r == Unbound
    ensures c.SetPipeline? ==> r == st.(pipeline := Some(c.pipeline))
    ensures c.BindRenderPSO? ==> r == st.(pipeline := Some(c.pipeline))
    ensures !c.BeginPass? && !c.SetPipeline? && !c.BindRenderPSO? ==> r.pipeline == st.pipeline
  {
    match c
    case BeginPass(_) => Unbound
    case SetPipeline(p) => st.(pipeline := Some(p))
    case BindRenderPSO(p) => st.(pipeline := Some(p))
    case SetBindGroup(slot, g) =>
      if slot == 0 then st.(group0 := Some(g))
      else if slot == 1 then st.(group1 := Some(g))
      else st
    case SetIndexBuffer(b) => st.(indexBuffer := Some(b))
    case SetVertexBuffer(slot, b) => if slot == 0 then st.(vertexBuffer0 := Some(b)) else st
    case _ => st
  }

  function IsDraw(c: Call): bool {
    c.Draw? || c.DrawIndexed?
  }

  /** The encoder state after `calls`, starting from `st`. */
  function Replay(st: EncState, calls: seq<Call>): EncState
    decreases |calls|
  {
    if calls == [] then st else Replay(Effect(st, calls[0]), calls[1..])
  }

  /** The encoder state in force at each draw of `calls`, in order. */
  function Draws(st: EncState, calls: seq<Call>): seq<EncState>
    decreases |calls|
  {
    if calls == [] then []
    else (if IsDraw(calls[0]) then [st] else []) + Draws(Effect(st, calls[0]), calls[1..])
  }

  /** The number of draws in `calls`. */
  function DrawCount(calls: seq<Call>): nat
    decreases |calls|
  {
    if calls == [] then 0 else (if IsDraw(calls[0]) then 1 else 0) + DrawCount(calls[1..])
  }

  /** One entry of `Draws` per draw. */
  lemma {:induction false} DrawsLength(st: EncState, calls: seq<Call>)
    ensures |Draws(st, calls)| == DrawCount(calls)
    decreases |calls|
  {
    if calls != [] {
      DrawsLength(Effect(st, calls[0]), calls[1..]);
    }
  }

  /** Replaying a call in front of others: its effect, a draw entry if it draws, then the rest. */
  lemma ReplayCons(st: EncState, c: Call, rest: seq<Call>)
    ensures Replay(st, [c] + rest) == Replay(Effect(st, c), rest)
    ensures Draws(st, [c] + rest) == (if IsDraw(c) then [st] else []) + Draws(Effect(st, c), rest)
  {
    assert ([c] + rest)[0] == c;
    assert ([c] + rest)[1..] == rest;
  }

  /** Replaying a concatenation replays its parts in turn. */
  lemma {:induction false} ReplayAppend(st: EncState, a: seq<Call>, b: seq<Call>)
    ensures Replay(st, a + b) == Replay(Replay(st, a), b)
    ensures Draws(st, a + b) == Draws(st, a) + Draws(Replay(st, a), b)
    decreases |a|
  {
    if a == [] {
      assert a + b == b;
    } else {
      assert (a + b)[0] == a[0];
      assert (a + b)[1..] == a[1..] + b;
      ReplayAppend(Effect(st, a[0]), a[1..], b);
    }
  }

  /** Calls none of which draws record no draw. */
  lemma {:induction false} QuietCalls(st: EncState, calls: seq<Call>)
    requires forall i :: 0 <= i < |calls| ==> !IsDraw(calls[i])
    ensures Draws(st, calls) == []
    decreases |calls|
  {
    if calls != [] {
      QuietCalls(Effect(st, calls[0]), calls[1..]);
    }
  }

  /** The pipelines of the `setPipeline` calls in `calls`, in order. */
  function Pipelines(calls: seq<Call>): seq<Id>
    decreases |calls|
  {
    if calls == [] then []
    else (if calls[0].SetPipeline? then [calls[0].pipeline] else []) + Pipelines(calls[1..])
  }

  lemma {:induction false} PipelinesAppend(a: seq<Call>, b: seq<Call>)
    ensures Pipelines(a + b) == Pipelines(a) + Pipelines(b)
    decreases |a|
  {
    if a == [] {
      assert a + b == b;
    } else {
      assert (a + b)[0] == a[0];
      assert (a + b)[1..] == a[1..] + b;
      PipelinesAppend(a[1..], b);
    }
  }
}
