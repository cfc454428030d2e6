/** The comment panel of an issue page (front/src/components/CommentSystem.jsx):
    how the comments the server sends are shown, which of them are top-level
    and which are replies, the reply form's toggle, and what posting a comment
    or a reply does. Posting goes through the issue store's `addComment`. */
module CommentSystem {
  import opened Common
  import opened FrontIssueContext

  /** A comment as the server sends it; the author may be populated. */
  datatype RawComment = RawComment(_id: string, authorId: Ref, body: string, parentId: Option<string>, createdAt: string)

  /** What the page shows as the author: a text, or, for a populated record
      without a name, the record itself. */
  datatype Author = Text(text: string) | Record(ref: Ref)

  /** `comment.authorId?.name || comment.authorId || 'Unknown'`. */
  function AuthorOf(a: Ref): (r: Author)
    ensures a.Doc? && a.name != "" ==> r == Text(a.name)
    ensures a.Id? && a.id != "" ==> r == Text(a.id)
    ensures !Truthy(a) ==> r == Text("Unknown")
    ensures r.Record? <==> (a.Doc? && a.name == "") || a.Empty?
    ensures r.Text? ==> r.text != ""
  {
    match a
    case Doc(_, name) => if name != "" then Text(name) else Record(a)
    case Id(id) => if id != "" then Text(id) else Text("Unknown")
    case Null => Text("Unknown")
    case Empty => Record(a)
  }

  datatype ViewComment = ViewComment(id: string, author: Author, text: string, parentId: Option<string>, timestamp: int)

  /** The mapping applied to every comment loaded. */
  function View(raw: RawComment, parseDate: string -> int): (c: ViewComment)
    ensures c.id == raw._id && c.text == raw.body && c.parentId == raw.parentId
    ensures c.author == AuthorOf(raw.authorId) && c.timestamp == parseDate(raw.createdAt)
  {
    ViewComment(raw._id, AuthorOf(raw.authorId), raw.body, raw.parentId, parseDate(raw.createdAt))
  }

  function ViewAll(raws: seq<RawComment>, parseDate: string -> int): (r: seq<ViewComment>)
    ensures |r| == |raws|
    ensures forall k :: 0 <= k < |raws| ==> r[k] == View(raws[k], parseDate)
  {
    seq(|raws|, k requires 0 <= k < |raws| => View(raws[k], parseDate))
  }

  /** `!c.parentId`: no parent, or an empty one. */
  predicate IsRoot(c: ViewComment) {
    c.parentId.None? || c.parentId.value == ""
  }

  function RootTest(): ViewComment -> bool {
    (c: ViewComment) => IsRoot(c)
  }

  function ReplyTest(commentId: string): ViewComment -> bool {
    (c: ViewComment) => c.parentId == Some(commentId)
  }

  /** `rootComments`. */
  function RootComments(comments: seq<ViewComment>): (r: seq<ViewComment>)
    ensures forall c :: c in r <==> c in comments && IsRoot(c)
    ensures IsSubsequence(r, comments)
  {
    FilterIsSubsequence(comments, RootTest());
    Filter(comments, RootTest())
  }

  /** `getReplies(commentId)`. */
  function Replies(comments: seq<ViewComment>, commentId: string): (r: seq<ViewComment>)
    ensures forall c :: c in r <==> c in comments && c.parentId == Some(commentId)
    ensures IsSubsequence(r, comments)
  {
    FilterIsSubsequence(comments, ReplyTest(commentId));
    Filter(comments, ReplyTest(commentId))
  }

  /** The two filters split the comments: each is top-level or a reply to its
      parent, and never both for a non-empty parent id. */
  lemma RootsAndRepliesSplit(comments: seq<ViewComment>, c: ViewComment, commentId: string)
    requires c in comments
    ensures c in RootComments(comments) || c in Replies(comments, c.parentId.value)
    ensures commentId != "" ==> !(c in RootComments(comments) && c in Replies(comments, commentId))
  {
  }

  /** The comment routes store no parent, so every loaded comment is
      top-level and no comment has replies. */
  lemma ServerCommentsAreTopLevel(raws: seq<RawComment>, parseDate: string -> int, commentId: string)
    requires forall k :: 0 <= k < |raws| ==> raws[k].parentId.None?
    ensures RootComments(ViewAll(raws, parseDate)) == ViewAll(raws, parseDate)
    ensures Replies(ViewAll(raws, parseDate), commentId) == []
  {
    var shown := ViewAll(raws, parseDate);
    forall c | c in shown ensures RootTest()(c) && c.parentId.None? {
      var k :| 0 <= k < |shown| && shown[k] == c;
      assert raws[k].parentId.None?;
    }
    FilterAll(shown, RootTest());
  }

  /** The Reply button: on the comment being answered it closes the form,
      on any other comment it opens that one's. */
  function ToggleReply(replyingTo: Option<string>, commentId: string): (r: Option<string>)
    ensures replyingTo == Some(commentId) ==> r.None?
    ensures replyingTo != Some(commentId) ==> r == Some(commentId)
  {
    if replyingTo == Some(commentId) then None else Some(commentId)
  }

  /** Two clicks on the same comment leave its form as it was, except that a
      form open on another comment ends up closed. */
  lemma ToggleReplyTwice(replyingTo: Option<string>, commentId: string)
    ensures ToggleReply(ToggleReply(replyingTo, commentId), commentId) ==
      (if replyingTo == Some(commentId) then Some(commentId) else None)
  {
  }

  const EmptyComment := "Please enter a comment"
  const EmptyReply := "Please enter a reply"

  class CommentPanel {
    const issueId: string
    const parseDate: string -> int
    var comments: seq<ViewComment>
    var loading: bool
    var newComment: string
    var replyingTo: Option<string>
    var replyText: string
    /** The page's own warning toast. */
    var shownError: Option<string>

    constructor (issueId: string, parseDate: string -> int)
      ensures this.issueId == issueId && this.parseDate == parseDate
      ensures comments == [] && loading && newComment == "" && replyingTo.None? && replyText == ""
      ensures shownError.None?
    {
      this.issueId := issueId;
      this.parseDate := parseDate;
      comments := [];
      loading := true;
      newComment := "";
      replyingTo := None;
      replyText := "";
      shownError := None;
    }

    /** `loadComments`: a failure keeps what was shown. Loading ends either
        way. */
    method Load(reply: Reply<seq<RawComment>>)
      modifies this
      ensures !loading && newComment == old(newComment) && replyText == old(replyText)
      ensures replyingTo == old(replyingTo) && shownError == old(shownError)
      ensures reply.Ok? ==> comments == ViewAll(reply.value, parseDate)
      ensures reply.Failed? ==> comments == old(comments)
    {
      if reply.Ok? {
        comments := ViewAll(reply.value, parseDate);
      }
      loading := false;
    }

    method ClickReply(commentId: string)
      modifies this
      ensures replyingTo == ToggleReply(old(replyingTo), commentId)
      ensures comments == old(comments) && newComment == old(newComment) && replyText == old(replyText)
      ensures loading == old(loading) && shownError == old(shownError)
    {
      replyingTo := ToggleReply(replyingTo, commentId);
    }

    /** `handleSubmitComment`. A draft that is blank after trimming is refused
        with a warning and nothing is sent. Otherwise the draft, untrimmed, is
        handed to `addComment` (returned as `sent`); only if that succeeds is
        the draft cleared and the comments reloaded. */
    method SubmitComment(store: IssueStore, post: Reply<()>, issuesReload: Reply<seq<RawIssue>>,
                         reload: Reply<seq<RawComment>>)
      returns (sent: Option<string>)
      modifies this, store
      ensures replyingTo == old(replyingTo) && replyText == old(replyText) && loading == old(loading)
      ensures sent.None? <==> Trim(old(newComment)) == []
      ensures sent.None? ==>
        && shownError == Some(EmptyComment)
        && newComment == old(newComment) && comments == old(comments)
        && store.issues == old(store.issues) && store.toasts == old(store.toasts)
      ensures sent.Some? ==> sent.value == old(newComment) && shownError == old(shownError)
      ensures sent.Some? && post.Failed? ==>
        && newComment == old(newComment) && comments == old(comments)
        && store.issues == old(store.issues)
      ensures sent.Some? && post.Ok? ==>
        && newComment == ""
        && comments == (if reload.Ok? then ViewAll(reload.value, parseDate) else old(comments))
        && (issuesReload.Ok? ==> store.issues == NormaliseAll(issuesReload.value, store.parseDate))
    {
      if Trim(newComment) == [] {
        shownError := Some(EmptyComment);
        return None;
      }
      sent := Some(newComment);
      var ok := store.AddComment(post, issuesReload);
      if ok {
        newComment := "";
        if reload.Ok? {
          comments := ViewAll(reload.value, parseDate);
        }
      }
    }

    /** `handleSubmitReply`. A blank reply is refused with a warning. Otherwise
        the reply is posted as a plain comment on the issue: the parent it
        answers is not sent. Only on success is the text cleared, the form
        closed and the comments reloaded. */
    method SubmitReply(parentId: string, store: IssueStore, post: Reply<()>, issuesReload: Reply<seq<RawIssue>>,
                       reload: Reply<seq<RawComment>>)
      returns (sent: Option<string>)
      modifies this, store
      ensures newComment == old(newComment) && loading == old(loading)
      ensures sent.None? <==> Trim(old(replyText)) == []
      ensures sent.None? ==>
        && shownError == Some(EmptyReply)
        && replyText == old(replyText) && replyingTo == old(replyingTo) && comments == old(comments)
        && store.issues == old(store.issues) && store.toasts == old(store.toasts)
      ensures sent.Some? ==> sent.value == old(replyText) && shownError == old(shownError)
      ensures sent.Some? && post.Failed? ==>
        && replyText == old(replyText) && replyingTo == old(replyingTo) && comments == old(comments)
        && store.issues == old(store.issues)
      ensures sent.Some? && post.Ok? ==>
        && replyText == "" && replyingTo.None?
        && comments == (if reload.Ok? then ViewAll(reload.value, parseDate) else old(comments))
        && (issuesReload.Ok? ==> store.issues == NormaliseAll(issuesReload.value, store.parseDate))
    {
      if Trim(replyText) == [] {
        shownError := Some(EmptyReply);
        return None;
      }
      sent := Some(replyText);
      var ok := store.AddComment(post, issuesReload);
      if ok {
        replyText := "";
        replyingTo := None;
        if reload.Ok? {
          comments := ViewAll(reload.value, parseDate);
        }
      }
    }
  }
}
