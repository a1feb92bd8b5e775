/** The layers together: a typed call over the session protocol. */
module Rpc {
  import opened Prelude
  import opened Wire
  import opened Values
  import opened Table
  import opened Session
  import SessionRuns
  import Marshal

  /** In every run, when a call was made with serialized arguments, the callable
      reads exactly those arguments when it is invoked; and when it answered
      with a serialized result and the call has been resolved by an answer, the
      caller gets exactly that result. */
  lemma TypedCall(states: seq<System>, steps: seq<Step>, n: nat, tag: nat,
                  tParam: seq<byte>, args: Row, tResult: seq<byte>, r: Marshal.Returned, v: View)
    requires IsRun(states, steps) && n < |states|
    requires Known(tParam) && |tParam| < TWO32 && Typed(tParam, args) && FittingRow(args)
    requires Known(tResult) && |tResult| < TWO32
    requires Marshal.ResultTyped(tResult, r) && FittingRow(Marshal.ResultRow(r))
    requires tag in states[n].client.recs && states[n].client.recs[tag].kind == Call
    requires states[n].client.recs[tag].param == Marshal.SerArgs(tParam, args)
    ensures var p := states[n].server.inflight;
            tag in p && AtCall(p[tag]) && Marshal.Shows(v, p[tag].param) ==>
              v.Valid() && Marshal.ReadParameter(tParam, v) == Loaded(args, v.length)
    ensures var c := states[n].client.recs[tag];
            && tag in states[n].computed
            && (c.phase != Waiting && !c.broken && states[n].computed[tag] == [Ok(Marshal.WriteResult(tResult, r))] ==>
                  && |c.seen| == 1 && c.seen[0].Ok?
                  && (Marshal.Shows(v, c.seen[0].body) ==>
                        v.Valid() && Marshal.UnserRet(tResult, v) == Loaded(r, v.length)))
  {
    hide Marshal.SerArgs, Marshal.WriteResult, Marshal.UnserRet, Marshal.ReadParameter, IsRun;
    SessionRuns.ServedAsMade(states, steps, n, tag);
    SessionRuns.CallsResolveOnce(states, steps, n, tag);
    if Marshal.Shows(v, Marshal.SerArgs(tParam, args)) {
      Marshal.ArgumentsArrive(tParam, args, v);
    }
    if Marshal.Shows(v, Marshal.WriteResult(tResult, r)) {
      Marshal.ResultArrives(tResult, r, v);
    }
  }
}
