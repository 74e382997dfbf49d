/** `createModalForIssue`: the two views of the create-issue dialog. The write
    view holds a title input and a description input; every other view shows
    the title and description as read-only sections. */
module IssueModal {
  import opened Js

  /** A block of the block builder. Inputs have a plain-text label and
      placeholder; sections show Markdown text. */
  datatype Block =
    | Input(blockId: string, actionId: string, initial: string, optional: bool, multiline: bool,
            labelText: string, placeholder: string)
    | Section(text: string)
    | Divider

  datatype Button = Button(text: string, danger: bool)

  datatype View = View(
    id: string,
    title: string,
    submit: Button,
    close: Button,
    blocks: seq<Block>,
    clearOnClose: bool,
    notifyOnClose: bool)

  /** The values of the two inputs, `issue-title.ititle` and `issue-description.idesc`. */
  datatype IssueContent = IssueContent(title: string, description: string)

  const WriteTitle := "Create Issue/write"
  const PreviewTitle := "Create Issue/preview"

  /** The issue template the description input starts with. */
  const Template: string :=
    "Please see our guide for opening issues: https://rocket.chat/docs/contributing/reporting-issues\n" +
    "    \n If you have questions or are looking for help/support please see: https://rocket.chat/docs/getting-support\n" +
    "    \n If you are experiencing a bug please search our issues to be sure it is not already present: https://github.com/RocketChat/Rocket.Chat/issues\n" +
    "    ### Description:\n" +
    "    \n\n" +
    "    <!-- A clear and concise description of what the bug is. -->\n" +
    "    \n\n" +
    "    ### Steps to reproduce:\n" +
    "    \n\n" +
    "    1. <!-- Go to '...' -->\n" +
    "    \n\n" +
    "    2. <!-- Click on '....' -->\n" +
    "    \n\n" +
    "    3. <!-- and so on... -->\n" +
    "    \n\n" +
    "    ### Expected behavior:\n" +
    "    \n\n" +
    "    <!-- What you expect to happen -->\n" +
    "    \n\n" +
    "    ### Actual behavior:\n" +
    "    \n\n" +
    "    <!-- What actually happens with SCREENSHOT, if applicable -->\n" +
    "    \n\n" +
    "    ### Server Setup Information:\n" +
    "    \n\n" +
    "    - Version of Rocket.Chat Server: \n" +
    "    \n\n" +
    "    - Operating System: \n" +
    "    \n\n" +
    "    - Deployment Method: <!-- snap/docker/tar/etc -->\n" +
    "    \n\n" +
    "    - Number of Running Instances: \n" +
    "    \n\n" +
    "    - DB Replicaset Oplog: \n" +
    "    \n\n" +
    "    - NodeJS Version: \n" +
    "    \n\n" +
    "    - MongoDB Version:\n" +
    "    \n\n" +
    "    ### Client Setup Information\n" +
    "    \n\n" +
    "    - Desktop App or Browser Version:\n" +
    "    \n\n" +
    "    - Operating System:\n" +
    "    \n\n" +
    "    ### Additional context\n" +
    "    \n\n" +
    "    <!-- Add any other context about the problem here. -->\n" +
    "    \n\n" +
    "    ### Relevant logs:\n" +
    "    \n\n" +
    "    <!-- Logs from both SERVER and BROWSER -->\n" +
    "    \n\n" +
    "    <!-- For more information about collecting logs please see: https://rocket.chat/docs/contributing/reporting-issues#gathering-logs -->\n" +
    "    "

  function TitleInput(title: string): Block {
    Input("issue-title", "ititle", title, false, false, "Title", "write the title here")
  }

  function DescriptionInput(initial: string): Block {
    Input("issue-description", "idesc", initial, false, true, "Description", "Markdown is supported")
  }

  /** The blocks of a view of the given type, before the closing divider. */
  function Body(kind: string, content: IssueContent): seq<Block> {
    if kind == "write" then
      // The description starts as `template || description`, which is always
      // the template: a non-empty string is truthy.
      [TitleInput(content.title), Divider, DescriptionInput(Template)]
    else
      [Section(content.title), Divider, Section(content.description)]
  }

  /** The arguments of one `createModalForIssue` call. */
  datatype ModalRequest = ModalRequest(id: string, kind: string, content: IssueContent)

  /** The view a request makes. */
  function BuildModal(r: ModalRequest): View {
    CreateModalForIssue(r.id, r.kind, r.content)
  }

  /** `createModalForIssue({id, type, content})`. */
  function CreateModalForIssue(id: string, kind: string, content: IssueContent): (v: View)
    ensures v.id == id && v.clearOnClose && v.notifyOnClose
    ensures |v.blocks| == 4 && v.blocks[3] == Divider
    ensures v.title == WriteTitle <==> kind == "write"
    ensures v.title == PreviewTitle <==> kind != "write"
    ensures v.submit == Button(if kind == "write" then "Preivew" else "Write", true)
    ensures v.close == Button(if kind == "preview" then "Create" else "Dismiss", false)
  {
    View(id,
         if kind == "write" then WriteTitle else PreviewTitle,
         Button(if kind == "write" then "Preivew" else "Write", true),
         Button(if kind == "preview" then "Create" else "Dismiss", false),
         Body(kind, content) + [Divider],
         true, true)
  }

  /** The write view asks for a title, pre-filled with the given one, and for a
      description pre-filled with the template whatever description was given:
      the template is never empty, so the given one is never used. */
  lemma WriteViewInputs(id: string, content: IssueContent)
    ensures CreateModalForIssue(id, "write", content).blocks
         == [ Input("issue-title", "ititle", content.title, false, false, "Title", "write the title here"),
              Divider,
              Input("issue-description", "idesc", Template, false, true, "Description", "Markdown is supported"),
              Divider ]
  {
  }

  /** Two write views built from the same title are the same view, whatever
      descriptions they were given. */
  lemma WriteViewIgnoresDescription(id: string, c1: IssueContent, c2: IssueContent)
    requires c1.title == c2.title
    ensures CreateModalForIssue(id, "write", c1) == CreateModalForIssue(id, "write", c2)
  {
    WriteViewInputs(id, c1);
    WriteViewInputs(id, c2);
  }

  /** The title and description a view shows, if it is a view of this dialog. */
  function ShownContent(v: View): Option<IssueContent> {
    if |v.blocks| == 4 && v.blocks[0].Section? && v.blocks[1].Divider? && v.blocks[2].Section?
    then Some(IssueContent(v.blocks[0].text, v.blocks[2].text))
    else None
  }

  /** A non-write view shows exactly the content it was built from. */
  lemma PreviewShowsContent(id: string, kind: string, content: IssueContent)
    requires kind != "write"
    ensures ShownContent(CreateModalForIssue(id, kind, content)) == Some(content)
  {
  }
}
