/**
 * The comment feed of the campaign details page as a state machine on
 * values. Each function gives the state after one event; the page class in
 * module CampaignDetailsPage is proved to follow these functions, and the
 * lemmas below state what the page promises over whole runs of events.
 *
 * The feed keeps what the page code does, not an idealised controller:
 * an empty page is appended (an array is truthy), a failed fetch leaves
 * the loading flag set, a change of campaign resets nothing, no identifier
 * is de-duplicated and repeated load-more clicks are not guarded.
 */
module CommentFeed {
  import opened Wrappers
  import opened JsSemantics

  /** A comment as the comment service returns it. */
  datatype Comment = Comment(id: int, userId: string, content: string, createdAt: string)

  /** What one awaited call to the page fetch produced. */
  datatype FetchOutcome =
    | Page(items: seq<Comment>)  // any array, the empty one included
    | Falsy                      // `null`, `undefined` or another falsy value
    | Threw                      // the call rejected; the handler only logs it

  /** The body sent to the comment service when a comment is posted. */
  datatype PostRequest = PostRequest(userId: string, postId: string, content: string)

  /** What the awaited post call produced. */
  datatype PostReply =
    | Reply(status: Status, data: Comment)
    | Rejected                   // the call threw, so the handler stopped at the await

  /** The outcome of the checks made before a post is sent. */
  datatype Validation =
    | NotLoggedIn                // no wallet address: an error toast, no call
    | EmptyComment               // whitespace-only input: an error toast, no call
    | Send(request: PostRequest) // the call that is issued

  /** The arguments of one `getCommentCompaign` call: the thread key and the cursor. */
  datatype Query = Query(title: string, cursor: string)

  /**
   * The page's comment state. `title` is the title of the campaign the
   * router currently passes to the page, which keys its comment thread.
   * `effectCursor` is the cursor the fetch effect last ran with (React's
   * stored dependency list), `None` before mount.
   */
  datatype Feed = Feed(
    title: string,
    comments: seq<Comment>,
    lastCreatedAt: string,
    isLoadingComment: bool,
    isDoneLoadingMore: bool,
    currentComment: string,
    effectCursor: Option<string>)

  /** The state right after the first render, before any effect has run. */
  function Initial(title: string): (f: Feed)
    ensures f.title == title
    ensures f.comments == [] && f.lastCreatedAt == "" && f.currentComment == ""
    ensures f.isLoadingComment && !f.isDoneLoadingMore && f.effectCursor.None?
  {
    Feed(title, [], "", true, false, "", None)
  }

  /** Whether the "Load more comments" action is rendered. */
  predicate ShowsLoadMore(f: Feed) {
    // `comments` is always an array, hence truthy
    !f.isDoneLoadingMore
  }

  /** Completion of a page fetch. */
  function ApplyFetch(f: Feed, outcome: FetchOutcome): (r: Feed)
    ensures outcome.Page? ==>
      && |r.comments| == |f.comments| + |outcome.items|
      && r.comments[..|f.comments|] == f.comments
      && r.comments[|f.comments|..] == outcome.items
      && !r.isLoadingComment
      && r.isDoneLoadingMore == f.isDoneLoadingMore
    ensures outcome.Falsy? ==>
      r.comments == f.comments && r.isDoneLoadingMore && !r.isLoadingComment
    ensures outcome.Threw? ==> r == f
    ensures r.lastCreatedAt == f.lastCreatedAt && r.currentComment == f.currentComment
    ensures r.effectCursor == f.effectCursor && r.title == f.title
  {
    match outcome
    case Page(items) => f.(comments := f.comments + items, isLoadingComment := false)
    case Falsy => f.(isDoneLoadingMore := true, isLoadingComment := false)
    case Threw => f
  }

  /** Whether a load-more click throws: `comments.at(-1)` is `undefined` on an empty list. */
  predicate LoadMoreThrows(f: Feed) {
    f.comments == []
  }

  /**
   * A click on "Load more comments". The loading flag is set first; on an
   * empty list the cursor update then throws and the cursor stays.
   */
  function LoadMore(f: Feed): (r: Feed)
    ensures r.isLoadingComment
    ensures !LoadMoreThrows(f) ==> r.lastCreatedAt == f.comments[|f.comments| - 1].createdAt
    ensures LoadMoreThrows(f) ==> r.lastCreatedAt == f.lastCreatedAt
    ensures r.comments == f.comments && r.isDoneLoadingMore == f.isDoneLoadingMore
    ensures r.currentComment == f.currentComment && r.effectCursor == f.effectCursor
    ensures r.title == f.title
  {
    var loading := f.(isLoadingComment := true);
    if LoadMoreThrows(f) then loading
    else loading.(lastCreatedAt := f.comments[|f.comments| - 1].createdAt)
  }

  /** The state after a render commit, and the fetch it issues, if any. */
  datatype Committed = Committed(feed: Feed, fetch: Option<Query>)

  /**
   * A render commit: the fetch effect runs on mount and whenever
   * `lastCreatedAt` differs from the value it last ran with. Its only
   * dependency is the cursor, so a change of title alone does not run it;
   * when it runs it reads the title of the current render.
   */
  function Commit(f: Feed): (r: Committed)
    ensures r.fetch.Some? <==> f.effectCursor != Some(f.lastCreatedAt)
    ensures r.fetch.Some? ==> r.fetch.value == Query(f.title, f.lastCreatedAt)
    ensures r.feed == f.(effectCursor := Some(f.lastCreatedAt))
  {
    var fetch := if f.effectCursor == Some(f.lastCreatedAt) then None else Some(Query(f.title, f.lastCreatedAt));
    Committed(f.(effectCursor := Some(f.lastCreatedAt)), fetch)
  }

  /**
   * The checks of a submit click, in the page's order: the address first,
   * then the trimmed input. Neither check changes the feed. The post is
   * keyed by the title of the current render.
   */
  function ValidateSubmit(f: Feed, address: Option<string>): (v: Validation)
    ensures !IsTruthy(address) <==> v == NotLoggedIn
    ensures v == EmptyComment <==> IsTruthy(address) && IsBlank(f.currentComment)
    ensures v.Send? ==> v.request == PostRequest(address.value, f.title, f.currentComment)
  {
    TrimEmptyIffBlank(f.currentComment);
    if !IsTruthy(address) then NotLoggedIn
    else if Trim(f.currentComment) == [] then EmptyComment
    else Send(PostRequest(address.value, f.title, f.currentComment))
  }

  /** Whether a post reply counts as created: `status == "201"`. */
  predicate IsCreated(reply: PostReply) {
    reply.Reply? && LooselyEquals201(reply.status)
  }

  /**
   * Completion of a post. A created comment is put in front; the input is
   * cleared whatever the status; a rejected call changes nothing.
   */
  function ApplyReply(f: Feed, reply: PostReply): (r: Feed)
    ensures IsCreated(reply) ==> r.comments == [reply.data] + f.comments
    ensures !IsCreated(reply) ==> r.comments == f.comments
    ensures reply.Reply? ==> r.currentComment == ""
    ensures reply.Rejected? ==> r == f
    ensures r.lastCreatedAt == f.lastCreatedAt && r.isDoneLoadingMore == f.isDoneLoadingMore
    ensures r.isLoadingComment == f.isLoadingComment && r.effectCursor == f.effectCursor
    ensures r.title == f.title
  {
    match reply
    case Rejected => f
    case Reply(status, data) =>
      var posted := if LooselyEquals201(status) then f.(comments := [data] + f.comments) else f;
      posted.(currentComment := "")
  }

  /** An event that changes the feed. */
  datatype Event =
    | FetchCompleted(outcome: FetchOutcome)
    | LoadMoreClicked
    | InputChanged(text: string)
    | PostCompleted(reply: PostReply)
    | RenderCommitted
    | RouteChanged(newTitle: string)  // the router hands the mounted page another campaign

  /** The comment an event puts in front of the list. */
  function PostedBy(e: Event): seq<Comment> {
    if e.PostCompleted? && IsCreated(e.reply) then [e.reply.data] else []
  }

  /** The page an event appends to the list. */
  function PageBy(e: Event): seq<Comment> {
    if e.FetchCompleted? && e.outcome.Page? then e.outcome.items else []
  }

  /** The state after one event. */
  function Step(f: Feed, e: Event): (r: Feed)
    ensures r.comments == PostedBy(e) + f.comments + PageBy(e)
    ensures r.effectCursor == if e.RenderCommitted? then Some(f.lastCreatedAt) else f.effectCursor
    ensures r.isDoneLoadingMore == (f.isDoneLoadingMore || e == FetchCompleted(Falsy))
    ensures r.title == if e.RouteChanged? then e.newTitle else f.title
  {
    match e
    case FetchCompleted(outcome) => ApplyFetch(f, outcome)
    case LoadMoreClicked => LoadMore(f)
    case InputChanged(text) => f.(currentComment := text)
    case PostCompleted(reply) => ApplyReply(f, reply)
    case RenderCommitted => Commit(f).feed
    case RouteChanged(newTitle) => f.(title := newTitle)
  }

  /** The fetches one event issues. */
  function IssuedBy(f: Feed, e: Event): (cs: seq<Query>)
    ensures |cs| <= 1
  {
    if e.RenderCommitted? && Commit(f).fetch.Some? then [Commit(f).fetch.value] else []
  }

  /** The state after a run of events. */
  function Run(f: Feed, es: seq<Event>): Feed
    decreases |es|
  {
    if es == [] then f else Run(Step(f, es[0]), es[1..])
  }

  /** The fetches issued during a run, in order. */
  function Fetches(f: Feed, es: seq<Event>): seq<Query>
    decreases |es|
  {
    if es == [] then [] else IssuedBy(f, es[0]) + Fetches(Step(f, es[0]), es[1..])
  }

  /** The comments a run puts in front, newest first. */
  function Posted(es: seq<Event>): seq<Comment>
    decreases |es|
  {
    if es == [] then [] else Posted(es[1..]) + PostedBy(es[0])
  }

  /** The pages a run appends, in arrival order. */
  function Fetched(es: seq<Event>): seq<Comment>
    decreases |es|
  {
    if es == [] then [] else PageBy(es[0]) + Fetched(es[1..])
  }

  /**
   * The list only ever grows at its two ends: posted comments in front,
   * fetched pages behind, and what was held stays in place and in order.
   * No event removes, reorders or de-duplicates a comment.
   */
  lemma {:induction false} CommentsGrowAtEnds(f: Feed, es: seq<Event>)
    ensures Run(f, es).comments == Posted(es) + f.comments + Fetched(es)
    decreases |es|
  {
    if es != [] {
      var g := Step(f, es[0]);
      CommentsGrowAtEnds(g, es[1..]);
      assert Run(f, es).comments == Posted(es[1..]) + (PostedBy(es[0]) + f.comments + PageBy(es[0])) + Fetched(es[1..]);
    }
  }

  /**
   * The done flag is set by a falsy page result and by nothing else, and
   * nothing clears it: once set the load-more action stays withdrawn.
   */
  lemma {:induction false} DoneExactlyAfterFalsyFetch(f: Feed, es: seq<Event>)
    ensures Run(f, es).isDoneLoadingMore <==> f.isDoneLoadingMore || FetchCompleted(Falsy) in es
    ensures f.isDoneLoadingMore ==> !ShowsLoadMore(Run(f, es))
    decreases |es|
  {
    if es != [] {
      DoneExactlyAfterFalsyFetch(Step(f, es[0]), es[1..]);
      assert es == [es[0]] + es[1..];
    }
  }

  /**
   * The comment fetch follows the cursor: two consecutive fetches never use
   * the same cursor, the first differs from the cursor the effect last ran
   * with, and the effect's stored cursor is the last one fetched (or, when
   * nothing was fetched, the one it had).
   */
  lemma {:induction false} FetchesFollowCursorChanges(f: Feed, es: seq<Event>)
    ensures var cs := Fetches(f, es);
      forall i :: 0 <= i < |cs| - 1 ==> cs[i].cursor != cs[i + 1].cursor
    ensures var cs := Fetches(f, es);
      cs != [] ==> Run(f, es).effectCursor == Some(cs[|cs| - 1].cursor)
    ensures var cs := Fetches(f, es);
      cs != [] && f.effectCursor.Some? ==> cs[0].cursor != f.effectCursor.value
    ensures Fetches(f, es) == [] ==> Run(f, es).effectCursor == f.effectCursor
    decreases |es|
  {
    if es != [] {
      var g := Step(f, es[0]);
      FetchesFollowCursorChanges(g, es[1..]);
      var first := IssuedBy(f, es[0]);
      var rest := Fetches(g, es[1..]);
      assert Fetches(f, es) == first + rest;
    }
  }

  /** The mount commit fetches the first page of the campaign's thread with the empty cursor. */
  lemma MountFetchesFirstPage(title: string, es: seq<Event>)
    ensures Fetches(Initial(title), [RenderCommitted] + es)[0] == Query(title, "")
  {
    assert ([RenderCommitted] + es)[1..] == es;
  }

  /**
   * Once the effect has run for the current cursor, a load-more click whose
   * oldest comment carries that same cursor issues no fetch: the loading
   * flag is then set with no fetch to clear it.
   */
  lemma SameCursorLoadMoreFetchesNothing(f: Feed)
    requires f.comments != [] && f.effectCursor == Some(f.lastCreatedAt)
    requires f.comments[|f.comments| - 1].createdAt == f.lastCreatedAt
    ensures Fetches(f, [LoadMoreClicked, RenderCommitted]) == []
    ensures Run(f, [LoadMoreClicked, RenderCommitted]).isLoadingComment
  {
    var f1 := f.(isLoadingComment := true);
    assert Step(f, LoadMoreClicked) == f1;
    assert Commit(f1) == Committed(f1, None);
    RunTwo(f, LoadMoreClicked, RenderCommitted);
  }

  /** A load-more click on an empty list throws, leaves the cursor, and issues no fetch. */
  lemma EmptyLoadMoreFetchesNothing(f: Feed)
    requires f.comments == [] && f.effectCursor == Some(f.lastCreatedAt)
    ensures Run(f, [LoadMoreClicked, RenderCommitted]).lastCreatedAt == f.lastCreatedAt
    ensures Fetches(f, [LoadMoreClicked, RenderCommitted]) == []
    ensures Run(f, [LoadMoreClicked, RenderCommitted]).isLoadingComment
  {
    RunTwo(f, LoadMoreClicked, RenderCommitted);
  }

  /**
   * A fetch that throws leaves every field as it was; in particular a
   * loading flag that was set stays set.
   */
  lemma ThrownFetchKeepsLoading(f: Feed)
    ensures Run(f, [FetchCompleted(Threw)]) == f
  {
  }

  /**
   * An empty array is truthy: it is appended (adding nothing), clears the
   * loading flag, and leaves the load-more action offered.
   */
  lemma EmptyPageKeepsFeedOpen(f: Feed)
    ensures Run(f, [FetchCompleted(Page([]))]).comments == f.comments
    ensures ShowsLoadMore(Run(f, [FetchCompleted(Page([]))])) == ShowsLoadMore(f)
    ensures !Run(f, [FetchCompleted(Page([]))]).isLoadingComment
  {
    assert f.comments + [] == f.comments;
  }

  /** A run split in two: the second part starts where the first ends. */
  lemma {:induction false} RunAppend(f: Feed, a: seq<Event>, b: seq<Event>)
    ensures Run(f, a + b) == Run(Run(f, a), b)
    decreases |a|
  {
    if a == [] {
      assert a + b == b;
    } else {
      var g := Step(f, a[0]);
      assert (a + b)[0] == a[0] && (a + b)[1..] == a[1..] + b;
      RunAppend(g, a[1..], b);
    }
  }

  /** The fetches of a run split in two are those of its parts, in order. */
  lemma {:induction false} FetchesAppend(f: Feed, a: seq<Event>, b: seq<Event>)
    ensures Fetches(f, a + b) == Fetches(f, a) + Fetches(Run(f, a), b)
    decreases |a|
  {
    if a == [] {
      assert a + b == b;
    } else {
      var g := Step(f, a[0]);
      assert (a + b)[0] == a[0] && (a + b)[1..] == a[1..] + b;
      FetchesAppend(g, a[1..], b);
      assert Run(f, a) == Run(g, a[1..]);
      assert Fetches(f, a + b) == IssuedBy(f, a[0]) + Fetches(g, a[1..] + b);
    }
  }

  /** A run of three events, unfolded. */
  lemma RunThree(f: Feed, e1: Event, e2: Event, e3: Event)
    ensures var f1 := Step(f, e1); var f2 := Step(f1, e2);
      && Run(f, [e1, e2, e3]) == Step(f2, e3)
      && Fetches(f, [e1, e2, e3]) == IssuedBy(f, e1) + IssuedBy(f1, e2) + IssuedBy(f2, e3)
  {
    var f1 := Step(f, e1);
    var f2 := Step(f1, e2);
    assert [e1, e2, e3][1..] == [e2, e3] && [e2, e3][1..] == [e3] && [e3][1..] == [];
    assert Run(f2, [e3]) == Step(f2, e3);
    assert Run(f1, [e2, e3]) == Step(f2, e3);
    assert Fetches(f2, [e3]) == IssuedBy(f2, e3);
    assert Fetches(f1, [e2, e3]) == IssuedBy(f1, e2) + IssuedBy(f2, e3);
  }

  /**
   * One load-more round on a settled feed whose oldest comment carries a new
   * cursor: the click moves the cursor, the commit fetches with it, and the
   * completion is applied to the clicked state.
   */
  lemma LoadMoreRound(f: Feed, outcome: FetchOutcome)
    requires f.comments != [] && f.effectCursor == Some(f.lastCreatedAt)
    requires f.comments[|f.comments| - 1].createdAt != f.lastCreatedAt
    ensures var cursor := f.comments[|f.comments| - 1].createdAt;
      && Run(f, [LoadMoreClicked, RenderCommitted, FetchCompleted(outcome)])
         == ApplyFetch(f.(isLoadingComment := true, lastCreatedAt := cursor, effectCursor := Some(cursor)), outcome)
      && Fetches(f, [LoadMoreClicked, RenderCommitted, FetchCompleted(outcome)]) == [Query(f.title, cursor)]
  {
    var cursor := f.comments[|f.comments| - 1].createdAt;
    var f1 := f.(isLoadingComment := true, lastCreatedAt := cursor);
    assert Step(f, LoadMoreClicked) == f1;
    var f2 := f1.(effectCursor := Some(cursor));
    assert Commit(f1) == Committed(f2, Some(Query(f.title, cursor)));
    RunThree(f, LoadMoreClicked, RenderCommitted, FetchCompleted(outcome));
  }

  /**
   * A three-page walk through the feed: the first page with the empty
   * cursor, a second page with the cursor of the oldest comment, then a
   * falsy result, after which the load-more action is withdrawn.
   */
  lemma PaginationWalkthrough(t: string, c5: Comment, c4: Comment, c3: Comment, es: seq<Event>)
    requires c4.createdAt == "T4" && c3.createdAt == "T3"
    requires es == [RenderCommitted, FetchCompleted(Page([c5, c4])), LoadMoreClicked, RenderCommitted,
                    FetchCompleted(Page([c3])), LoadMoreClicked, RenderCommitted, FetchCompleted(Falsy)]
    ensures Run(Initial(t), es).comments == [c5, c4, c3]
    ensures !ShowsLoadMore(Run(Initial(t), es))
    ensures Fetches(Initial(t), es) == [Query(t, ""), Query(t, "T4"), Query(t, "T3")]
  {
    var first := [RenderCommitted, FetchCompleted(Page([c5, c4]))];
    var second := [LoadMoreClicked, RenderCommitted, FetchCompleted(Page([c3]))];
    var third := [LoadMoreClicked, RenderCommitted, FetchCompleted(Falsy)];
    assert es == first + second + third;
    var f5 := Feed(t, [c5, c4, c3], "T4", false, false, "", Some("T4"));
    var f8 := Feed(t, [c5, c4, c3], "T3", false, true, "", Some("T3"));
    assert Run(Initial(t), es) == f8 by {
      WalkTwoPages(t, c5, c4, c3, first + second, f5);
      WalkLastPage(f5, f8);
      RunAppend(Initial(t), first + second, third);
    }
    assert Fetches(Initial(t), es) == [Query(t, ""), Query(t, "T4")] + [Query(t, "T3")] by {
      WalkTwoPages(t, c5, c4, c3, first + second, f5);
      WalkLastPage(f5, f8);
      FetchesAppend(Initial(t), first + second, third);
    }
  }

  /** The walk's first two phases: mount, the first page, a click and the second page. */
  lemma WalkTwoPages(t: string, c5: Comment, c4: Comment, c3: Comment, a: seq<Event>, f5: Feed)
    requires c4.createdAt == "T4"
    requires a == [RenderCommitted, FetchCompleted(Page([c5, c4])), LoadMoreClicked, RenderCommitted,
                   FetchCompleted(Page([c3]))]
    requires f5 == Feed(t, [c5, c4, c3], "T4", false, false, "", Some("T4"))
    ensures Run(Initial(t), a) == f5
    ensures Fetches(Initial(t), a) == [Query(t, ""), Query(t, "T4")]
  {
    var first := [RenderCommitted, FetchCompleted(Page([c5, c4]))];
    var second := [LoadMoreClicked, RenderCommitted, FetchCompleted(Page([c3]))];
    assert a == first + second;
    var f2 := Feed(t, [c5, c4], "", false, false, "", Some(""));
    assert Run(Initial(t), a) == f5 by {
      WalkFirstPage(t, c5, c4, f2);
      WalkSecondPage(f2, c3, f5);
      RunAppend(Initial(t), first, second);
    }
    assert Fetches(Initial(t), a) == [Query(t, "")] + [Query(t, "T4")] by {
      WalkFirstPage(t, c5, c4, f2);
      WalkSecondPage(f2, c3, f5);
      FetchesAppend(Initial(t), first, second);
    }
  }

  /** The walk's first phase: mount, then the first page arrives. */
  lemma WalkFirstPage(t: string, c5: Comment, c4: Comment, f2: Feed)
    requires f2 == Feed(t, [c5, c4], "", false, false, "", Some(""))
    ensures Run(Initial(t), [RenderCommitted, FetchCompleted(Page([c5, c4]))]) == f2
    ensures Fetches(Initial(t), [RenderCommitted, FetchCompleted(Page([c5, c4]))]) == [Query(t, "")]
  {
    MountRound(Initial(t), Page([c5, c4]));
    assert [] + [c5, c4] == [c5, c4];
  }

  /** The walk's second phase: a click, and a one-comment page arrives. */
  lemma WalkSecondPage(f2: Feed, c3: Comment, f5: Feed)
    requires f2.comments != [] && f2.comments[|f2.comments| - 1].createdAt == "T4"
    requires f2.lastCreatedAt == "" && f2.effectCursor == Some("") && !f2.isDoneLoadingMore
    requires f5 == f2.(comments := f2.comments + [c3], lastCreatedAt := "T4", isLoadingComment := false,
                       effectCursor := Some("T4"))
    ensures Run(f2, [LoadMoreClicked, RenderCommitted, FetchCompleted(Page([c3]))]) == f5
    ensures Fetches(f2, [LoadMoreClicked, RenderCommitted, FetchCompleted(Page([c3]))]) == [Query(f2.title, "T4")]
  {
    LoadMoreRound(f2, Page([c3]));
  }

  /** The walk's last phase: a click, and a falsy result ends the feed. */
  lemma WalkLastPage(f5: Feed, f8: Feed)
    requires f5.comments != [] && f5.comments[|f5.comments| - 1].createdAt == "T3"
    requires f5.lastCreatedAt == "T4" && f5.effectCursor == Some("T4")
    requires f8 == f5.(lastCreatedAt := "T3", isLoadingComment := false, isDoneLoadingMore := true,
                       effectCursor := Some("T3"))
    ensures Run(f5, [LoadMoreClicked, RenderCommitted, FetchCompleted(Falsy)]) == f8
    ensures Fetches(f5, [LoadMoreClicked, RenderCommitted, FetchCompleted(Falsy)]) == [Query(f5.title, "T3")]
  {
    LoadMoreRound(f5, Falsy);
  }

  /** The mount commit and the completion of the fetch it issues. */
  lemma MountRound(f: Feed, outcome: FetchOutcome)
    requires f.effectCursor.None?
    ensures Run(f, [RenderCommitted, FetchCompleted(outcome)])
            == ApplyFetch(f.(effectCursor := Some(f.lastCreatedAt)), outcome)
    ensures Fetches(f, [RenderCommitted, FetchCompleted(outcome)]) == [Query(f.title, f.lastCreatedAt)]
  {
    var f1 := f.(effectCursor := Some(f.lastCreatedAt));
    assert Commit(f) == Committed(f1, Some(Query(f.title, f.lastCreatedAt)));
    RunTwo(f, RenderCommitted, FetchCompleted(outcome));
  }

  /**
   * While the router keeps the same campaign, every fetch of a run asks for
   * that campaign's thread.
   */
  lemma {:induction false} FetchesKeepTitle(f: Feed, es: seq<Event>)
    requires forall j :: 0 <= j < |es| ==> !es[j].RouteChanged?
    ensures forall q :: q in Fetches(f, es) ==> q.title == f.title
    ensures Run(f, es).title == f.title
    decreases |es|
  {
    if es != [] {
      FetchesKeepTitle(Step(f, es[0]), es[1..]);
    }
  }

  /**
   * A change of campaign under the mounted page changes the title and
   * nothing else: the list, the cursor, the input and the flags of the old
   * campaign stay, and the next commit issues no fetch, since its only
   * dependency, the cursor, did not change.
   */
  lemma RouteChangeResetsNothing(f: Feed, t: string)
    requires f.effectCursor == Some(f.lastCreatedAt)
    ensures Run(f, [RouteChanged(t), RenderCommitted]) == f.(title := t)
    ensures Fetches(f, [RouteChanged(t), RenderCommitted]) == []
  {
    var f1 := f.(title := t);
    assert Commit(f1) == Committed(f1, None);
    RunTwo(f, RouteChanged(t), RenderCommitted);
  }

  /**
   * After a change of campaign, the next load-more round asks the new
   * campaign's thread for the comments older than the old campaign's oldest
   * comment, and appends what comes back behind the old campaign's list.
   */
  lemma LoadMoreAfterRouteChange(f: Feed, t: string, outcome: FetchOutcome)
    requires f.comments != [] && f.effectCursor == Some(f.lastCreatedAt)
    requires f.comments[|f.comments| - 1].createdAt != f.lastCreatedAt
    ensures var es := [RouteChanged(t), LoadMoreClicked, RenderCommitted, FetchCompleted(outcome)];
      && Fetches(f, es) == [Query(t, f.comments[|f.comments| - 1].createdAt)]
      && Run(f, es).comments == f.comments + PageBy(FetchCompleted(outcome))
  {
    var g := f.(title := t);
    var round := [LoadMoreClicked, RenderCommitted, FetchCompleted(outcome)];
    var es := [RouteChanged(t), LoadMoreClicked, RenderCommitted, FetchCompleted(outcome)];
    var cursor := f.comments[|f.comments| - 1].createdAt;
    assert Step(f, RouteChanged(t)) == g;
    assert es == [RouteChanged(t)] + round;
    assert Fetches(f, es) == [Query(t, cursor)] by {
      RunCons(f, RouteChanged(t), round);
      LoadMoreRound(g, outcome);
    }
    assert Run(f, es).comments == f.comments + PageBy(FetchCompleted(outcome)) by {
      RunCons(f, RouteChanged(t), round);
      LoadMoreRound(g, outcome);
    }
  }

  /** A run that starts with one event, unfolded once. */
  lemma RunCons(f: Feed, e: Event, rest: seq<Event>)
    ensures Run(f, [e] + rest) == Run(Step(f, e), rest)
    ensures Fetches(f, [e] + rest) == IssuedBy(f, e) + Fetches(Step(f, e), rest)
  {
    assert ([e] + rest)[0] == e && ([e] + rest)[1..] == rest;
  }

  /** A run of two events, unfolded. */
  lemma RunTwo(f: Feed, e1: Event, e2: Event)
    ensures var f1 := Step(f, e1);
      && Run(f, [e1, e2]) == Step(f1, e2)
      && Fetches(f, [e1, e2]) == IssuedBy(f, e1) + IssuedBy(f1, e2)
  {
    var f1 := Step(f, e1);
    assert [e1, e2][1..] == [e2] && [e2][1..] == [];
    assert Run(f1, [e2]) == Step(f1, e2);
    assert Fetches(f1, [e2]) == IssuedBy(f1, e2);
  }
}
