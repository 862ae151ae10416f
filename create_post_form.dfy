/** The post composer of src/components/CreatePostForm.tsx: a submission
    needs a signed-in user and non-blank content, sends the trimmed content
    and the trimmed image link (or none), and clears the draft only when the
    insert succeeded. */
module CreatePost {
  import opened Common

  /** The row a submission inserts into `posts`. */
  datatype PostInsert = PostInsert(userId: UserId, content: string, imageUrl: Option<string>)

  /** Why a submission was refused before anything was sent. */
  datatype Refusal = NotSignedIn | EmptyContent

  /** What a submission ended in. */
  datatype Submission =
    | Refused(reason: Refusal)
    | Sent(insert: PostInsert, created: bool)

  /** The checks, in the source's order: the user first, then the content. */
  function Validate(user: Option<UserId>, content: string): (r: Option<Refusal>)
    ensures r == Some(NotSignedIn) <==> user.None?
    ensures r == Some(EmptyContent) <==> user.Some? && Blank(content)
    ensures r.None? <==> user.Some? && !Blank(content)
  {
    if user.None? then Some(NotSignedIn)
    else if Blank(content) then Some(EmptyContent)
    else None
  }

  /** `{ user_id, content: content.trim(), image_url: imageUrl.trim() || null }` */
  function Payload(user: UserId, content: string, imageUrl: string): (p: PostInsert)
    ensures p.userId == user && p.content == Trim(content)
    ensures p.imageUrl.None? <==> Blank(imageUrl)
    ensures p.imageUrl.Some? ==> p.imageUrl.value == Trim(imageUrl)
  {
    PostInsert(user, Trim(content), if Blank(imageUrl) then None else Some(Trim(imageUrl)))
  }

  /** The submit button is enabled when nothing is in flight and the content
      is not blank. */
  predicate SubmitEnabled(isSubmitting: bool, content: string)
  {
    !isSubmitting && !Blank(content)
  }

  /** A signed-in user who can press the enabled button passes validation,
      and the content sent is never blank. */
  lemma EnabledSubmitPassesValidation(user: UserId, content: string, imageUrl: string)
    requires SubmitEnabled(false, content)
    ensures Validate(Some(user), content).None?
    ensures !Blank(Payload(user, content, imageUrl).content)
  {
    TrimIdempotent(content);
  }

  class CreatePostForm {
    var content: string
    var imageUrl: string
    var isSubmitting: bool
    /** How often the form has called its `onPostCreated` callback. */
    var postsCreated: nat

    constructor ()
      ensures content == "" && imageUrl == "" && !isSubmitting && postsCreated == 0
    {
      content := "";
      imageUrl := "";
      isSubmitting := false;
      postsCreated := 0;
    }

    /** `handleSubmit`, given the outcome of the insert. */
    method HandleSubmit(user: Option<UserId>, outcome: Remote<()>) returns (result: Submission)
      modifies this
      ensures Validate(user, old(content)).Some? ==>
                result == Refused(Validate(user, old(content)).value)
                && content == old(content) && imageUrl == old(imageUrl)
                && isSubmitting == old(isSubmitting) && postsCreated == old(postsCreated)
      ensures Validate(user, old(content)).None? ==>
                result == Sent(Payload(user.value, old(content), old(imageUrl)), outcome.Success?)
                && !isSubmitting
      // the draft is cleared and the callback runs exactly once on success
      ensures result.Sent? && result.created ==>
                content == "" && imageUrl == "" && postsCreated == old(postsCreated) + 1
      // the draft is kept when the insert failed
      ensures result.Sent? && !result.created ==>
                content == old(content) && imageUrl == old(imageUrl) && postsCreated == old(postsCreated)
    {
      if user.None? {
        return Refused(NotSignedIn);
      }
      if Blank(content) {
        return Refused(EmptyContent);
      }
      isSubmitting := true;
      var insert := Payload(user.value, content, imageUrl);
      if outcome.Success? {
        content := "";
        imageUrl := "";
        postsCreated := postsCreated + 1;
      }
      result := Sent(insert, outcome.Success?);
      isSubmitting := false;
    }
  }
}
