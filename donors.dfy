/**
 * The donor list of the campaign details page: refreshed from the chain
 * gateway when a contract handle is present, on mount and whenever the
 * contract handle or the wallet address changes; each result replaces the
 * whole list.
 */
module Donors {
  import opened Wrappers

  /** One donation as the chain gateway reports it. */
  datatype Donation = Donation(donator: string, donation: string)

  /**
   * The donor effect's dependencies: the contract handle (an object, so
   * compared by identity, here a handle number) and the wallet address.
   */
  datatype Context = Context(contract: Option<nat>, address: Option<string>)

  /** What one awaited `getDonations` call produced. */
  datatype DonationsOutcome = Fetched(donations: seq<Donation>) | GatewayFailed

  /** The donor state; `effectContext` is what the effect last ran with, `None` before mount. */
  datatype Panel = Panel(donators: seq<Donation>, effectContext: Option<Context>)

  /** The state right after the first render. */
  function InitialPanel(): (p: Panel)
    ensures p.donators == [] && p.effectContext.None?
  {
    Panel([], None)
  }

  /** The "Total Backers" figure. */
  function BackerCount(p: Panel): nat {
    |p.donators|
  }

  /** The state after a render commit, and whether a refresh is issued. */
  datatype DonorCommit = DonorCommit(panel: Panel, refresh: bool)

  /**
   * A render commit with the current context: the effect runs when the
   * context differs from the one it last ran with, and fetches only when a
   * contract handle is present.
   */
  function CommitContext(p: Panel, ctx: Context): (r: DonorCommit)
    ensures r.refresh <==> p.effectContext != Some(ctx) && ctx.contract.Some?
    ensures r.panel.donators == p.donators && r.panel.effectContext == Some(ctx)
  {
    var runs := p.effectContext != Some(ctx);
    DonorCommit(p.(effectContext := Some(ctx)), runs && ctx.contract.Some?)
  }

  /**
   * Completion of a refresh: a result replaces the list as it is, with no
   * merging; a failed call leaves the list.
   */
  function ApplyDonations(p: Panel, outcome: DonationsOutcome): (r: Panel)
    ensures outcome.Fetched? ==> r.donators == outcome.donations
    ensures outcome.GatewayFailed? ==> r == p
    ensures r.effectContext == p.effectContext
  {
    match outcome
    case Fetched(donations) => p.(donators := donations)
    case GatewayFailed => p
  }

  /** An event that changes the donor state. */
  datatype DonorEvent = ContextCommitted(ctx: Context) | DonationsArrived(outcome: DonationsOutcome)

  function DonorStep(p: Panel, e: DonorEvent): Panel {
    match e
    case ContextCommitted(ctx) => CommitContext(p, ctx).panel
    case DonationsArrived(outcome) => ApplyDonations(p, outcome)
  }

  function RunDonors(p: Panel, es: seq<DonorEvent>): Panel
    decreases |es|
  {
    if es == [] then p else RunDonors(DonorStep(p, es[0]), es[1..])
  }

  /** Whether an event delivers a donor list. */
  predicate Delivers(e: DonorEvent) {
    e.DonationsArrived? && e.outcome.Fetched?
  }

  /**
   * The list shown is the one delivered last, whatever was held before it
   * and whatever came earlier: later deliveries overwrite, nothing merges.
   */
  lemma {:induction false} LastDeliveryWins(p: Panel, es: seq<DonorEvent>, i: nat)
    requires i < |es| && Delivers(es[i])
    requires forall j :: i < j < |es| ==> !Delivers(es[j])
    ensures RunDonors(p, es).donators == es[i].outcome.donations
    ensures BackerCount(RunDonors(p, es)) == |es[i].outcome.donations|
    decreases |es|
  {
    if i == 0 {
      NoDeliveryKeepsList(DonorStep(p, es[0]), es[1..]);
    } else {
      LastDeliveryWins(DonorStep(p, es[0]), es[1..], i - 1);
    }
  }

  /** Without a delivery the list stays as it is. */
  lemma {:induction false} NoDeliveryKeepsList(p: Panel, es: seq<DonorEvent>)
    requires forall j :: 0 <= j < |es| ==> !Delivers(es[j])
    ensures RunDonors(p, es).donators == p.donators
    decreases |es|
  {
    if es != [] {
      NoDeliveryKeepsList(DonorStep(p, es[0]), es[1..]);
    }
  }

  /**
   * An identity switch that refreshes and gets back the same list leaves
   * the donor list and the backer count as they were.
   */
  lemma SameSnapshotRefreshIsInvisible(p: Panel, ctx: Context)
    requires ctx.contract.Some? && p.effectContext != Some(ctx)
    ensures CommitContext(p, ctx).refresh
    ensures RunDonors(p, [ContextCommitted(ctx), DonationsArrived(Fetched(p.donators))]).donators == p.donators
  {
    LastDeliveryWins(p, [ContextCommitted(ctx), DonationsArrived(Fetched(p.donators))], 1);
  }
}
