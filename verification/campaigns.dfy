/** The campaigns slice: the state of the most recent "start campaign" request. */
module Campaigns {
  import opened Wrappers
  import opened JsValues

  /** `{ loading, error, success, lastCampaign }`. */
  datatype State = State(loading: bool, error: Option<string>, success: bool, lastCampaign: JsValue)

  const Initial := State(false, None, false, JsValue.Null)

  const DefaultMessage := "Something went wrong while starting the campaign"

  /** `resetCampaignState` and the three `startCampaign` cases. */
  datatype Action = Reset | Pending | Fulfilled(campaign: JsValue) | Rejected(message: Option<string>)

  /** The campaigns reducer. */
  function Reduce(s: State, a: Action): (r: State)
    ensures a.Reset? ==> r == Initial
    ensures a.Pending? ==> r.loading && r.error.None? && !r.success && r.lastCampaign == s.lastCampaign
    ensures a.Fulfilled? ==> !r.loading && r.success && r.lastCampaign == a.campaign && r.error == s.error
    ensures a.Rejected? ==> !r.loading && !r.success && r.lastCampaign == s.lastCampaign
    ensures a.Rejected? ==> r.error == Some(OrElse(a.message, DefaultMessage))
  {
    match a
    case Reset => Initial
    case Pending => s.(loading := true, error := None, success := false)
    case Fulfilled(p) => s.(loading := false, success := true, lastCampaign := p)
    case Rejected(p) => s.(loading := false, error := Some(OrElse(p, DefaultMessage)), success := false)
  }

  function Run(s: State, actions: seq<Action>): State
    decreases |actions|
  {
    if |actions| == 0 then s else Run(Reduce(s, actions[0]), actions[1..])
  }

  /** A request is never both in flight and reported successful. */
  predicate NotLoadingAndSuccess(s: State) {
    !(s.loading && s.success)
  }

  /** Every single action leaves the state not both loading and successful. */
  lemma ReduceNeverLoadingAndSuccess(s: State, a: Action)
    ensures NotLoadingAndSuccess(Reduce(s, a))
  {
  }

  /** From the initial state, no action sequence reaches `loading && success`. */
  lemma {:induction false} RunNeverLoadingAndSuccess(s: State, actions: seq<Action>)
    requires NotLoadingAndSuccess(s)
    ensures NotLoadingAndSuccess(Run(s, actions))
    decreases |actions|
  {
    if |actions| > 0 {
      ReduceNeverLoadingAndSuccess(s, actions[0]);
      RunNeverLoadingAndSuccess(Reduce(s, actions[0]), actions[1..]);
    }
  }

  /** `lastCampaign` changes only on a fulfilled request or a reset. */
  lemma LastCampaignChangesOnlyOnFulfilledOrReset(s: State, a: Action)
    requires Reduce(s, a).lastCampaign != s.lastCampaign
    ensures a.Fulfilled? || a.Reset?
  {
  }

  /** Over a sequence, a changed `lastCampaign` is the payload of a fulfilled action, or `null` after a reset. */
  lemma {:induction false} RunLastCampaign(s: State, actions: seq<Action>)
    ensures var r := Run(s, actions).lastCampaign;
      r == s.lastCampaign || r == JsValue.Null
      || exists k | 0 <= k < |actions| :: actions[k].Fulfilled? && actions[k].campaign == r
    decreases |actions|
  {
    if |actions| > 0 {
      var next := Reduce(s, actions[0]);
      RunLastCampaign(next, actions[1..]);
      var r := Run(s, actions).lastCampaign;
      assert Run(s, actions) == Run(next, actions[1..]);
      if r != s.lastCampaign && r != JsValue.Null {
        if exists k | 0 <= k < |actions[1..]| :: actions[1..][k].Fulfilled? && actions[1..][k].campaign == r {
          var k :| 0 <= k < |actions[1..]| && actions[1..][k].Fulfilled? && actions[1..][k].campaign == r;
          assert actions[k + 1] == actions[1..][k];
        } else {
          assert r == next.lastCampaign;
          assert actions[0].Fulfilled? && actions[0].campaign == r;
        }
      }
    }
  }
}
