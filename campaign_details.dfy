/**
 * The campaign details page's state as an object whose handlers update its
 * fields step by step, as the page component's setters do. Each handler is
 * proved to follow the value-level transition in CommentFeed or Donors, and
 * leaves the other half of the page untouched.
 *
 * Service calls are not made here: a handler that issues one returns its
 * arguments, and the completion of the call is a separate method taking
 * the call's result.
 */
module CampaignDetailsPage {
  import opened Wrappers
  import opened JsSemantics
  import opened CommentFeed
  import opened Donors

  class CampaignDetails {
    /** The on-chain index of the campaign the router passes, given to `getDonations`. */
    var pId: nat
    /** The title of the campaign the router passes, the key of its comment thread. */
    var title: string

    var comments: seq<Comment>
    var lastCreatedAt: string
    var isLoadingComment: bool
    var isDoneLoadingMore: bool
    var currentComment: string
    /** The cursor the comment effect last ran with; `None` before mount. */
    var commentEffectCursor: Option<string>

    var donators: seq<Donation>
    /** The context the donor effect last ran with; `None` before mount. */
    var donorEffectContext: Option<Context>

    /** The comment half of the page as a value. */
    function FeedState(): Feed
      reads this
    {
      Feed(title, comments, lastCreatedAt, isLoadingComment, isDoneLoadingMore, currentComment, commentEffectCursor)
    }

    /** The donor half of the page as a value. */
    function DonorState(): Panel
      reads this
    {
      Panel(donators, donorEffectContext)
    }

    /** The first render: every state hook at its initial value. */
    constructor (pId: nat, title: string)
      ensures this.pId == pId && this.title == title
      ensures FeedState() == Initial(title) && DonorState() == InitialPanel()
    {
      this.pId := pId;
      this.title := title;
      comments := [];
      lastCreatedAt := "";
      isLoadingComment := true;
      isDoneLoadingMore := false;
      currentComment := "";
      commentEffectCursor := None;
      donators := [];
      donorEffectContext := None;
    }

    /**
     * A render commit for the comment effect: returns the arguments of the
     * `getCommentCompaign(title, cursor)` call it issues, if any.
     */
    method CommitCommentEffect() returns (fetch: Option<Query>)
      modifies this`commentEffectCursor
      ensures Commit(old(FeedState())) == Committed(FeedState(), fetch)
    {
      if commentEffectCursor != Some(lastCreatedAt) {
        fetch := Some(Query(title, lastCreatedAt));
      } else {
        fetch := None;
      }
      commentEffectCursor := Some(lastCreatedAt);
    }

    /** Completion of a comment page fetch. */
    method CompleteCommentFetch(outcome: FetchOutcome)
      modifies this`comments, this`isDoneLoadingMore, this`isLoadingComment
      ensures FeedState() == ApplyFetch(old(FeedState()), outcome)
    {
      match outcome {
        case Page(items) =>
          comments := comments + items;
          isLoadingComment := false;
        case Falsy =>
          isDoneLoadingMore := true;
          isLoadingComment := false;
        case Threw =>
      }
    }

    /**
     * A click on "Load more comments"; `threw` reports the TypeError raised
     * when there is no last comment to read the cursor from.
     */
    method HandleLoadMoreComment() returns (threw: bool)
      modifies this`isLoadingComment, this`lastCreatedAt
      ensures threw == LoadMoreThrows(old(FeedState()))
      ensures FeedState() == LoadMore(old(FeedState()))
    {
      isLoadingComment := true;
      if comments == [] {
        return true;
      }
      lastCreatedAt := comments[|comments| - 1].createdAt;
      return false;
    }

    /** The input field's change handler. */
    method ChangeInput(text: string)
      modifies this`currentComment
      ensures FeedState() == old(FeedState()).(currentComment := text)
    {
      currentComment := text;
    }

    /**
     * A click on the send button up to the post call: returns which check
     * stopped it, or the request it sends. Changes no state.
     */
    method HandleSubmit(address: Option<string>) returns (v: Validation)
      ensures v == ValidateSubmit(FeedState(), address)
      ensures v.Send? <==> IsTruthy(address) && !IsBlank(currentComment)
    {
      if !IsTruthy(address) {
        return NotLoggedIn;
      }
      if Trim(currentComment) == [] {
        TrimEmptyIffBlank(currentComment);
        return EmptyComment;
      }
      TrimEmptyIffBlank(currentComment);
      return Send(PostRequest(address.value, title, currentComment));
    }

    /** The rest of a submit, once the post call has come back. */
    method CompleteSubmit(reply: PostReply)
      modifies this`comments, this`currentComment
      ensures FeedState() == ApplyReply(old(FeedState()), reply)
    {
      match reply {
        case Rejected =>
        case Reply(status, data) =>
          if LooselyEquals201(status) {
            comments := [data] + comments;
          }
          currentComment := "";
      }
    }

    /**
     * A render commit for the donor effect with the current contract handle
     * and address: returns the campaign index of the `getDonations` call it
     * issues, if any.
     */
    method CommitDonorEffect(contract: Option<nat>, address: Option<string>) returns (fetch: Option<nat>)
      modifies this`donorEffectContext
      ensures var c := CommitContext(old(DonorState()), Context(contract, address));
        DonorState() == c.panel && (fetch.Some? <==> c.refresh)
      ensures fetch.Some? ==> fetch.value == pId
    {
      var ctx := Context(contract, address);
      fetch := None;
      if donorEffectContext != Some(ctx) && contract.Some? {
        fetch := Some(pId);
      }
      donorEffectContext := Some(ctx);
    }

    /**
     * The router hands the mounted page another campaign: the title and the
     * index are read afresh, and no other state is touched.
     */
    method ChangeRoute(newTitle: string, newPId: nat)
      modifies this`title, this`pId
      ensures title == newTitle && pId == newPId
      ensures FeedState() == Step(old(FeedState()), RouteChanged(newTitle))
      ensures DonorState() == old(DonorState())
    {
      title := newTitle;
      pId := newPId;
    }

    /** Completion of a donor refresh. */
    method CompleteDonorFetch(outcome: DonationsOutcome)
      modifies this`donators
      ensures DonorState() == ApplyDonations(old(DonorState()), outcome)
    {
      if outcome.Fetched? {
        donators := outcome.donations;
      }
    }

  }
}
