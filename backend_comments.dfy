/** The comment routes (backend/src/routes/comments.js): a flat list of
    comments per issue, editable and deletable by their author or an elevated
    role. The issue a comment names is not checked for existence. */
module CommentRoutes {
  import opened Common
  import opened Domain
  import opened BackendModels
  import IssueRoutes

  function CommentIdOf(c: Comment): int { c.id }

  function CommentCreatedAt(c: Comment): int { c.createdAt }

  function OnIssue(issueId: IssueId): Comment -> bool {
    (c: Comment) => c.issueId == issueId
  }

  function NotComment(id: nat): Comment -> bool {
    (c: Comment) => c.id != id
  }

  function CommentIndex(s: seq<Comment>, id: nat): (r: Option<nat>)
    ensures r.Some? ==> r.value < |s| && s[r.value].id == id
    ensures r.None? <==> forall k :: 0 <= k < |s| ==> s[k].id != id
  {
    FindIndex(s, (c: Comment) => c.id == id)
  }

  /** Whoever may change a comment: its author or an elevated role. */
  predicate MayModerate(actor: Payload, c: Comment) {
    c.authorId == actor.sub || IsElevated(actor.role)
  }

  /** The comment schema: a required, non-empty body. */
  function ValidateBody(v: Option<string>): (r: Response<string>)
    ensures r.Ok? <==> v.Some? && |v.value| >= 1
    ensures r.Ok? ==> r.value == v.value
    ensures r.Fail? ==> r.code == 400
  {
    IssueRoutes.RequiredText("body", v)
  }

  class CommentService {
    var comments: seq<Comment>
    var nextId: nat

    ghost predicate Valid()
      reads this
    {
      KeysIncreasing(comments, CommentIdOf)
      && forall k :: 0 <= k < |comments| ==> comments[k].id < nextId
    }

    constructor ()
      ensures Valid() && comments == []
    {
      comments := [];
      nextId := 0;
    }

    /** `GET /comments/issue/:issueId`: that issue's comments, newest first. */
    function ListFor(issueId: IssueId): (r: seq<Comment>)
      reads this
      ensures forall c :: c in r <==> c in comments && c.issueId == issueId
      ensures multiset(r) == multiset(Filter(comments, OnIssue(issueId)))
      ensures SortedDesc(r, CommentCreatedAt)
    {
      var mine := Filter(comments, OnIssue(issueId));
      SortDescSameElements(mine, CommentCreatedAt);
      SortDesc(mine, CommentCreatedAt)
    }

    /** `POST /comments/issue/:issueId`: 400 on an empty body, else a new
        comment by the caller. */
    method Create(actor: Payload, issueId: IssueId, body: Option<string>, now: int)
      returns (r: Response<Comment>)
      requires Valid()
      modifies this
      ensures Valid()
      ensures ValidateBody(body).Fail? ==> r.Fail? && r.code == 400 && unchanged(this)
      ensures ValidateBody(body).Ok? ==>
        && r == Ok(Comment(old(nextId), issueId, actor.sub, body.value, now, now))
        && comments == old(comments) + [r.value]
    {
      var v := ValidateBody(body);
      if v.Fail? {
        return Fail(400, v.message);
      }
      var c := Comment(nextId, issueId, actor.sub, v.value, now, now);
      comments := comments + [c];
      nextId := nextId + 1;
      r := Ok(c);
    }

    /** `PATCH /comments/:id`: 400, then 404, then 403 unless author or
        elevated; the body is replaced and the update time moves only if the
        text changed. */
    method Edit(actor: Payload, id: nat, body: Option<string>, now: int) returns (r: Response<Comment>)
      requires Valid()
      modifies this
      ensures Valid()
      ensures nextId == old(nextId)
      ensures ValidateBody(body).Fail? ==> r.Fail? && r.code == 400 && comments == old(comments)
      ensures ValidateBody(body).Ok? && CommentIndex(old(comments), id).None? ==>
        r == Fail(404, "Not found") && comments == old(comments)
      ensures ValidateBody(body).Ok? && CommentIndex(old(comments), id).Some? ==>
        var k := CommentIndex(old(comments), id).value;
        var c := old(comments)[k];
        if MayModerate(actor, c) then
          && r == Ok(c.(body := body.value, updatedAt := if c.body == body.value then c.updatedAt else now))
          && comments == old(comments)[k := r.value]
        else
          r == Fail(403, "Forbidden") && comments == old(comments)
    {
      var v := ValidateBody(body);
      if v.Fail? {
        return Fail(400, v.message);
      }
      var k := CommentIndex(comments, id);
      if k.None? {
        return Fail(404, "Not found");
      }
      var c := comments[k.value];
      if !MayModerate(actor, c) {
        return Fail(403, "Forbidden");
      }
      var edited := if c.body == v.value then c else c.(body := v.value, updatedAt := now);
      comments := comments[k.value := edited];
      r := Ok(edited);
    }

    /** `DELETE /comments/:id`: 404, then 403 unless author or elevated. */
    method Delete(actor: Payload, id: nat) returns (r: Response<string>)
      requires Valid()
      modifies this
      ensures Valid()
      ensures nextId == old(nextId)
      ensures CommentIndex(old(comments), id).None? ==> r == Fail(404, "Not found") && comments == old(comments)
      ensures CommentIndex(old(comments), id).Some? ==>
        var c := old(comments)[CommentIndex(old(comments), id).value];
        if MayModerate(actor, c) then
          && r == Ok("Deleted")
          && (forall x :: x in comments <==> x in old(comments) && x.id != id)
          && |comments| == |old(comments)| - 1
        else
          r == Fail(403, "Forbidden") && comments == old(comments)
    {
      var k := CommentIndex(comments, id);
      if k.None? {
        return Fail(404, "Not found");
      }
      if !MayModerate(actor, comments[k.value]) {
        return Fail(403, "Forbidden");
      }
      FilterKeepsKeysIncreasing(comments, NotComment(id), CommentIdOf);
      RemoveUniqueKey(comments, k.value);
      comments := Filter(comments, NotComment(id));
      r := Ok("Deleted");
    }
  }

  /** With ids unique, filtering out one present id removes exactly one comment. */
  lemma {:induction false} RemoveUniqueKey(s: seq<Comment>, k: nat)
    requires KeysIncreasing(s, CommentIdOf)
    requires k < |s|
    ensures |Filter(s, NotComment(s[k].id))| == |s| - 1
    decreases |s|
  {
    var id := s[k].id;
    assert s == [s[0]] + s[1..];
    if k == 0 {
      assert forall j :: 0 <= j < |s[1..]| ==> s[1..][j].id != id by {
        forall j | 0 <= j < |s[1..]| ensures s[1..][j].id != id {
          assert s[1..][j] == s[j + 1];
        }
      }
      assert forall x :: x in s[1..] ==> NotComment(id)(x);
      FilterAll(s[1..], NotComment(id));
    } else {
      assert s[1..][k - 1] == s[k];
      assert KeysIncreasing(s[1..], CommentIdOf) by {
        forall a, b | 0 <= a < b < |s[1..]| ensures s[1..][a].id < s[1..][b].id {
          assert s[1..][a] == s[a + 1] && s[1..][b] == s[b + 1];
        }
      }
      RemoveUniqueKey(s[1..], k - 1);
    }
  }
}
