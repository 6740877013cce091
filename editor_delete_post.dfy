/**
 * The editor's "Move to trash" button. Its one piece of state, `isTrashing`,
 * keeps a second click from sending the post to the trash twice: it is set
 * before the trash request goes out, a failed request clears it, and a
 * successful one leaves it set for good.
 */
module EditorDeletePost {
  import opened Js

  /** The post prop: `id == 0` stands for a missing or falsy `ID`. */
  datatype Post = Post(id: nat, status: string, postType: string)

  /** The confirmation question shown before trashing. */
  datatype Confirmation = TrashPageQuestion | TrashPostQuestion

  datatype Label = MoveToTrashLabel | TrashingLabel

  /** The rendered button: its label and whether it carries the `is-trashing` class. */
  datatype DeleteButton = DeleteButton(text: Label, trashingClass: bool)

  /** The button is rendered only for a saved post that is not already in the trash. */
  predicate Visible(post: Option<Post>)
  {
    post.Some? && post.value.id != 0 && post.value.status != "trash"
  }

  /** The question asked before trashing: the page variant exactly for pages. */
  function ConfirmationFor(post: Post): (c: Confirmation)
    ensures c == TrashPageQuestion <==> post.postType == "page"
    ensures c == TrashPostQuestion <==> post.postType != "page"
  {
    if post.postType == "page" then TrashPageQuestion else TrashPostQuestion
  }

  class DeletePostButton {
    const post: Option<Post>
    /** Whether the `onTrashingPost` callback prop is provided. */
    const hasOnTrashingPost: bool

    var isTrashing: bool

    /** Posts handed to the trash action, in order. */
    var trashRequests: seq<Post>
    /** Questions handed to the confirmation dialog, in order. */
    var confirmations: seq<Confirmation>
    /**
     * Arguments passed to `onTrashingPost`: the completion's error value, with
     * `None` for a missing one and `Some("")` for a falsy string.
     */
    var notifications: seq<Option<string>>

    /** Whether a trash request has gone out and its completion has not yet arrived. */
    ghost var inFlight: bool
    /** The errors with which the trash requests completed; a falsy one is success. */
    ghost var completions: seq<Option<string>>

    ghost predicate Succeeded()
      reads this
    {
      completions != [] && !TruthyOption(completions[|completions| - 1])
    }

    /**
     * The guard invariant: a request in flight, or one that succeeded, keeps
     * `isTrashing` set; every request but the current one has completed, and
     * every completion but the last one failed, so at most one succeeds.
     */
    ghost predicate Valid()
      reads this
    {
      && (inFlight ==> isTrashing)
      && (Succeeded() ==> isTrashing && !inFlight)
      && |trashRequests| == |completions| + (if inFlight then 1 else 0)
      && (forall i :: 0 <= i < |completions| - 1 ==> TruthyOption(completions[i]))
    }

    constructor (post: Option<Post>, hasOnTrashingPost: bool)
      ensures Valid()
      ensures this.post == post && this.hasOnTrashingPost == hasOnTrashingPost
      ensures !isTrashing && trashRequests == [] && confirmations == [] && notifications == []
    {
      this.post := post;
      this.hasOnTrashingPost := hasOnTrashingPost;
      isTrashing := false;
      trashRequests := [];
      confirmations := [];
      notifications := [];
      inFlight := false;
      completions := [];
    }

    /**
     * `sendToTrash`: sets `isTrashing` first, then issues the trash request if
     * the user may delete the post; otherwise `isTrashing` stays set.
     */
    method SendToTrash(userCanDelete: bool)
      requires Valid() && post.Some? && !isTrashing
      modifies this
      ensures Valid() && isTrashing
      ensures trashRequests == old(trashRequests) + (if userCanDelete then [post.value] else [])
      ensures inFlight == userCanDelete && completions == old(completions)
      ensures confirmations == old(confirmations) && notifications == old(notifications)
    {
      isTrashing := true;
      if userCanDelete {
        trashRequests := trashRequests + [post.value];
        inFlight := true;
      }
    }

    /**
     * The completion callback of the trash request: a truthy error clears
     * `isTrashing`, anything else (success) leaves it set; `onTrashingPost`
     * hears the outcome either way.
     */
    method HandleTrashingPost(error: Option<string>)
      requires Valid() && inFlight
      modifies this
      ensures Valid() && !inFlight
      ensures isTrashing == !TruthyOption(error)
      ensures completions == old(completions) + [error]
      ensures notifications == old(notifications) + (if hasOnTrashingPost then [error] else [])
      ensures trashRequests == old(trashRequests) && confirmations == old(confirmations)
    {
      if TruthyOption(error) {
        isTrashing := false;
      }
      if hasOnTrashingPost {
        notifications := notifications + [error];
      }
      completions := completions + [error];
      inFlight := false;
    }

    /**
     * `onSendToTrash`: a click. Ignored while trashing; otherwise asks for
     * confirmation and sends the post to the trash if the user accepts.
     */
    method OnSendToTrash(accepted: bool, userCanDelete: bool)
      requires Valid() && post.Some?
      modifies this
      ensures Valid()
      ensures old(isTrashing) ==> unchanged(this)
      ensures !old(isTrashing) ==> confirmations == old(confirmations) + [ConfirmationFor(post.value)]
      ensures !old(isTrashing) ==> isTrashing == accepted
      ensures !old(isTrashing) ==>
                trashRequests == old(trashRequests) + (if accepted && userCanDelete then [post.value] else [])
      ensures !old(isTrashing) ==> inFlight == (accepted && userCanDelete)
      ensures old(inFlight || Succeeded()) ==> trashRequests == old(trashRequests) && inFlight == old(inFlight)
      ensures notifications == old(notifications) && completions == old(completions)
    {
      if isTrashing {
        return;
      }
      var message := ConfirmationFor(post.value);
      confirmations := confirmations + [message];
      if accepted {
        SendToTrash(userCanDelete);
      }
    }

    /**
     * The guard: while a request is in flight, or once one has succeeded, the
     * button is trashing, so `OnSendToTrash` sends no further request.
     */
    lemma BusyButtonIgnoresClicks()
      requires Valid() && (inFlight || Succeeded())
      ensures isTrashing
    {
    }

    /** `render`: nothing for a missing, unsaved or trashed post; the label follows `isTrashing`. */
    function Render(): (r: Option<DeleteButton>)
      reads this
      ensures r.None? <==> post.None? || post.value.id == 0 || post.value.status == "trash"
      ensures r.Some? ==> (r.value.text == TrashingLabel <==> isTrashing)
      ensures r.Some? ==> (r.value.text == MoveToTrashLabel <==> !isTrashing)
      ensures r.Some? ==> r.value.trashingClass == isTrashing
    {
      if !Visible(post) then None
      else Some(DeleteButton(if isTrashing then TrashingLabel else MoveToTrashLabel, isTrashing))
    }
  }

  /** Two accepted clicks before the first request completes send the post to the trash once. */
  method ClickTwiceBeforeCompletion(post: Post) returns (requests: nat)
    ensures requests == 1
  {
    var button := new DeletePostButton(Some(post), true);
    button.OnSendToTrash(true, true);
    button.OnSendToTrash(true, true);
    requests := |button.trashRequests|;
  }

  /** After a failed request the button may be used again; after a successful one it may not. */
  method RetryAfterCompletion(post: Post, firstError: Option<string>) returns (requests: nat, shown: Label)
    ensures requests == if TruthyOption(firstError) then 2 else 1
    ensures shown == TrashingLabel
  {
    var button := new DeletePostButton(Some(post.(id := post.id + 1, status := "draft")), false);
    button.OnSendToTrash(true, true);
    button.HandleTrashingPost(firstError);
    button.OnSendToTrash(true, true);
    requests := |button.trashRequests|;
    var view := button.Render();
    shown := view.value.text;
  }
}
