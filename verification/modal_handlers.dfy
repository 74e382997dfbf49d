/** The app's handlers for the create-issue dialog: submitting toggles between
    the write and preview views by the current view's title, and closing the
    preview files the issue. */
module ModalHandlers {
  import opened Js
  import opened IssueModal
  import Sdk

  /** The view id both transitions use. */
  const ModalId := "modalid"

  /** Owner, repository and token the close handler files issues with. */
  const IssueOwner := "Aman-Maheshwari"
  const IssueRepo := "getwork"
  const FixedToken := "123"

  /** Reply to a submit: replace the open view, or a plain `{success: true}`. */
  datatype SubmitResponse = UpdateModal(view: View) | Acknowledge

  /** Reply to a close: always `{success: true}`; `call` is the issue filed, if any. */
  datatype CloseResponse = CloseResponse(call: Option<Sdk.ApiCall>, success: bool)

  /** `executeViewSubmitHandler`: `state` holds the values of the view's inputs. */
  function ExecuteViewSubmit(view: View, state: IssueContent): (r: SubmitResponse)
    ensures view.title == WriteTitle ==> r == UpdateModal(CreateModalForIssue(ModalId, "preview", state))
    ensures view.title == PreviewTitle ==> r == UpdateModal(CreateModalForIssue(ModalId, "write", state))
    ensures r.Acknowledge? <==> view.title != WriteTitle && view.title != PreviewTitle
  {
    if view.title == WriteTitle then UpdateModal(CreateModalForIssue(ModalId, "preview", state))
    else if view.title == PreviewTitle then UpdateModal(CreateModalForIssue(ModalId, "write", state))
    else Acknowledge
  }

  /** `executeViewClosedHandler`: closing the preview files an issue with the
      state's title and description; the outcome of that call is ignored. */
  function ExecuteViewClosed(view: View, state: IssueContent): (r: CloseResponse)
    ensures r.success
    ensures r.call.Some? <==> view.title == PreviewTitle
    ensures r.call.Some? ==>
      r.call.value == Sdk.CreateIssue(FixedToken, IssueOwner, IssueRepo, state.title, state.description)
  {
    if view.title == PreviewTitle then
      CloseResponse(Some(Sdk.CreateIssue(FixedToken, IssueOwner, IssueRepo, state.title, state.description)), true)
    else CloseResponse(None, true)
  }

  /** Submitting alternates the two views: write goes to preview and preview
      back to write, whatever view id they started with. */
  lemma SubmitAlternates(id: string, c: IssueContent, d: IssueContent)
    ensures ExecuteViewSubmit(CreateModalForIssue(id, "write", c), d).UpdateModal?
    ensures ExecuteViewSubmit(CreateModalForIssue(id, "write", c), d).view.title == PreviewTitle
    ensures ExecuteViewSubmit(CreateModalForIssue(id, "preview", c), d).UpdateModal?
    ensures ExecuteViewSubmit(CreateModalForIssue(id, "preview", c), d).view.title == WriteTitle
  {
  }

  /** Write, preview, write again: the preview shows what was typed, and the
      new write view keeps the title but starts the description over from the
      template. */
  lemma WritePreviewWrite(id: string, typed: IssueContent)
    ensures ShownContent(ExecuteViewSubmit(CreateModalForIssue(id, "write", IssueContent("", "")), typed).view)
         == Some(typed)
    ensures ExecuteViewSubmit(ExecuteViewSubmit(CreateModalForIssue(id, "write", IssueContent("", "")), typed).view, typed)
         == UpdateModal(CreateModalForIssue(ModalId, "write", IssueContent(typed.title, Template)))
  {
    var preview := ExecuteViewSubmit(CreateModalForIssue(id, "write", IssueContent("", "")), typed).view;
    assert preview == CreateModalForIssue(ModalId, "preview", typed);
    PreviewShowsContent(ModalId, "preview", typed);
    WriteViewIgnoresDescription(ModalId, typed, IssueContent(typed.title, Template));
  }

  /** Write, submit, close: closing the preview reached by submitting files
      the typed title and description on the fixed repository. */
  lemma WriteSubmitCloseFiles(id: string, c: IssueContent, typed: IssueContent)
    ensures ExecuteViewClosed(ExecuteViewSubmit(CreateModalForIssue(id, "write", c), typed).view, typed).call
         == Some(Sdk.CreateIssue(FixedToken, IssueOwner, IssueRepo, typed.title, typed.description))
  {
  }

  /** Only the preview files an issue; the write view and foreign views do not. */
  lemma OnlyPreviewCloseFiles(id: string, c: IssueContent, state: IssueContent)
    ensures ExecuteViewClosed(CreateModalForIssue(id, "preview", c), state).call.Some?
    ensures ExecuteViewClosed(CreateModalForIssue(id, "write", c), state).call.None?
  {
  }
}
