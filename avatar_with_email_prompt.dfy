/**
 * The build creator's avatar with its email prompt (`AvatarWithEmailPrompt`):
 * the case-insensitive lookup of the creator's email among the viewer's
 * emails, the choice of prompt, when the prompt's query variables are turned
 * on, the `isAddingEmail` flag driven by the add-email mutation, and the
 * popover-or-avatar choice.
 *
 * The viewer's emails arrive as edges `{node: {address, verified}}`. The
 * lookup reads `verified` from the edge rather than from its node, so as
 * written it never sees a verified email; `UserEmailInformation` keeps that
 * reading and `CorrectedUserEmailInformation` reads the node.
 */
module AvatarWithEmailPrompt {
  import opened JsRuntime
  import opened FlashesStore

  datatype EmailNode = EmailNode(address: string, verified: bool)

  /** An element of `viewer.emails.edges`: the email itself sits under `node`. */
  datatype EmailEdge = EmailEdge(node: EmailNode)

  datatype Notice = Notice(dismissedAt: Option<string>)

  /** `notice` is only fetched once `isTryingToPrompt` is on; until then it is absent. */
  datatype Viewer = Viewer(emails: seq<EmailEdge>, notice: Option<Notice>)

  /** Who created the build: an unregistered user known only by email, or a registered user. */
  datatype Creator =
    | UnregisteredUser(email: Option<string>, name: string)
    | RegisteredUser(name: string)

  datatype Build = Build(createdBy: Option<Creator>)

  datatype Props = Props(build: Build, viewer: Viewer)

  /** The query variables held by the data layer. */
  datatype Variables = Variables(emailForPrompt: Option<string>, isTryingToPrompt: bool)

  const InitialVariables := Variables(None, false)

  /** `createdBy.email`: a registered user has no such property. */
  function CreatorEmail(c: Creator): Option<string> {
    match c
    case UnregisteredUser(email, _) => email
    case RegisteredUser(_) => None
  }

  // ---------------------------------------------------------------------
  // Property reads on the fetched edges

  /** The values a property read on an edge or a node can produce. */
  datatype JsValue = Undefined | Bool(b: bool) | Str(s: string) | NodeObject(node: EmailNode)

  predicate Truthy(v: JsValue) {
    match v
    case Undefined => false
    case Bool(b) => b
    case Str(s) => s != ""
    case NodeObject(_) => true
  }

  /** `edge[key]`: an edge has the single property `node`. */
  function EdgeProperty(e: EmailEdge, key: string): (v: JsValue)
    ensures v != Undefined <==> key == "node"
  {
    if key == "node" then NodeObject(e.node) else Undefined
  }

  /** `node[key]`: a node has the properties `address` and `verified`. */
  function NodeProperty(n: EmailNode, key: string): (v: JsValue)
    ensures key == "verified" ==> v == Bool(n.verified)
    ensures key == "address" ==> v == Str(n.address)
  {
    if key == "address" then Str(n.address)
    else if key == "verified" then Bool(n.verified)
    else Undefined
  }

  // ---------------------------------------------------------------------
  // getUserEmailInformation and isCurrentUsersEmail

  /** The `find` predicate: the edge's address equals the email ignoring case. */
  predicate Matches(e: EmailEdge, email: string) {
    EqualsIgnoringCase(e.node.address, email)
  }

  /** The index of the edge `edges.find(...)` returns: the first match. */
  function FindIndex(edges: seq<EmailEdge>, email: string): (r: Option<nat>)
    ensures r.Some? ==> r.value < |edges| && Matches(edges[r.value], email)
    ensures r.Some? ==> forall j :: 0 <= j < r.value ==> !Matches(edges[j], email)
    ensures r.None? <==> forall j :: 0 <= j < |edges| ==> !Matches(edges[j], email)
    decreases |edges|
  {
    if |edges| == 0 then None
    else if Matches(edges[0], email) then Some(0)
    else match FindIndex(edges[1..], email)
      case None => None
      case Some(i) => Some(i + 1)
  }

  /** The `{ isCurrentUsers, isVerified }` result of `getUserEmailInformation`. */
  datatype EmailInfo = EmailInfo(isCurrentUsers: bool, isVerified: JsValue)

  /** `getUserEmailInformation` as written: `isVerified` is read from the found edge. */
  function UserEmailInformation(edges: seq<EmailEdge>, email: string): (info: EmailInfo)
    ensures info.isCurrentUsers <==> exists i :: 0 <= i < |edges| && Matches(edges[i], email)
    ensures !info.isCurrentUsers ==> info.isVerified == Bool(false)
  {
    match FindIndex(edges, email)
    case None => EmailInfo(false, Bool(false))
    case Some(i) => EmailInfo(true, EdgeProperty(edges[i], "verified"))
  }

  /** As written, `isVerified` is never truthy, whatever the viewer's emails say. */
  lemma IsVerifiedNeverTruthy(edges: seq<EmailEdge>, email: string)
    ensures !Truthy(UserEmailInformation(edges, email).isVerified)
  {
  }

  /** The lookup with `verified` read from the found edge's node. */
  function CorrectedUserEmailInformation(edges: seq<EmailEdge>, email: string): (info: EmailInfo)
    ensures info.isCurrentUsers == UserEmailInformation(edges, email).isCurrentUsers
    ensures Truthy(info.isVerified) <==>
              exists i :: 0 <= i < |edges| && Matches(edges[i], email) && edges[i].node.verified
                          && forall j :: 0 <= j < i ==> !Matches(edges[j], email)
  {
    match FindIndex(edges, email)
    case None => EmailInfo(false, Bool(false))
    case Some(i) => EmailInfo(true, NodeProperty(EdgeProperty(edges[i], "node").node, "verified"))
  }

  /** `isCurrentUsersEmail`. */
  function IsCurrentUsersEmail(edges: seq<EmailEdge>, email: string): (b: bool)
    ensures b <==> exists i :: 0 <= i < |edges| && Matches(edges[i], email)
  {
    UserEmailInformation(edges, email).isCurrentUsers
  }

  /** `getUserEmailInformation`: a `find` over the edges, then the two reassigned flags. */
  method GetUserEmailInformation(edges: seq<EmailEdge>, email: string) returns (info: EmailInfo)
    ensures info == UserEmailInformation(edges, email)
  {
    var isCurrentUsers := false;
    var isVerified := Bool(false);

    var i := 0;
    while i < |edges| && Lower(edges[i].node.address) != Lower(email)
      invariant 0 <= i <= |edges|
      invariant forall j :: 0 <= j < i ==> !Matches(edges[j], email)
    {
      i := i + 1;
    }
    var foundEmail := if i < |edges| then Some(edges[i]) else None;

    if foundEmail.Some? {
      isCurrentUsers := true;
      isVerified := EdgeProperty(foundEmail.value, "verified");
    }
    info := EmailInfo(isCurrentUsers, isVerified);
  }

  // ---------------------------------------------------------------------
  // renderContent

  datatype Action = AddEmail(address: string) | Dismiss

  /** What `renderContent` produces; `Hidden` is its `null`. */
  datatype Content =
    | Hidden
    | AddingEmail
    | VerifyEmail(email: string)
    | UnknownEmail(email: string, actions: seq<Action>)

  /** The outcome of the early returns of `renderContent`, before the email is classified. */
  datatype Precheck = CreatorMissing | Decided(content: Content) | Classify(email: string)

  function Prechecks(props: Props, vars: Variables, isAddingEmail: bool): (r: Precheck)
    ensures r.CreatorMissing? <==> props.build.createdBy.None?
    ensures r.Classify? <==> GuardsPass(props, vars) && !isAddingEmail
    ensures r.Classify? ==> r.email == CreatorEmail(props.build.createdBy.value).value
    ensures r.Decided? ==> (r.content == AddingEmail <==> GuardsPass(props, vars) && isAddingEmail)
    ensures r.Decided? ==> r.content == Hidden || r.content == AddingEmail
  {
    if props.build.createdBy.None? then CreatorMissing
    else
      var email := CreatorEmail(props.build.createdBy.value);
      var notice := props.viewer.notice;
      if !StrTruthy(email) then Decided(Hidden)
      else if !vars.isTryingToPrompt then Decided(Hidden)
      else if notice.Some? && StrTruthy(notice.value.dismissedAt) then Decided(Hidden)
      else if isAddingEmail then Decided(AddingEmail)
      else Classify(email.value)
  }

  /** The prompt chosen from the lookup's result. */
  function Classification(email: string, info: EmailInfo): (c: Content)
    ensures c == Hidden <==> info.isCurrentUsers && Truthy(info.isVerified)
    ensures c.UnknownEmail? <==> !info.isCurrentUsers
    ensures c.UnknownEmail? ==> c == UnknownEmail(email, [AddEmail(email), Dismiss])
    ensures c.VerifyEmail? ==> c.email == email
    ensures c != AddingEmail
  {
    if info.isCurrentUsers then
      if Truthy(info.isVerified) then Hidden else VerifyEmail(email)
    else
      UnknownEmail(email, [AddEmail(email), Dismiss])
  }

  /** Destructuring `build.createdBy` when it is null throws. */
  const CreatorMissingError := TypeError("Cannot read property 'email' of null")

  /** `renderContent` as written, with the edge-level `verified` read. */
  function RenderContentAsWritten(props: Props, vars: Variables, isAddingEmail: bool): (r: Completion<Content>)
    ensures r.Threw? <==> props.build.createdBy.None?
    ensures r.Normal? && r.value != Hidden ==> GuardsPass(props, vars)
    ensures r == Normal(AddingEmail) <==> GuardsPass(props, vars) && isAddingEmail
  {
    match Prechecks(props, vars, isAddingEmail)
    case CreatorMissing => Threw(CreatorMissingError)
    case Decided(c) => Normal(c)
    case Classify(email) => Normal(Classification(email, UserEmailInformation(props.viewer.emails, email)))
  }

  /** `renderContent` with the corrected lookup. */
  function RenderContent(props: Props, vars: Variables, isAddingEmail: bool): (r: Completion<Content>)
    ensures r.Threw? <==> props.build.createdBy.None?
    ensures r.Normal? && r.value != Hidden ==> GuardsPass(props, vars)
    ensures r == Normal(AddingEmail) <==> GuardsPass(props, vars) && isAddingEmail
  {
    match Prechecks(props, vars, isAddingEmail)
    case CreatorMissing => Threw(CreatorMissingError)
    case Decided(c) => Normal(c)
    case Classify(email) =>
      Normal(Classification(email, CorrectedUserEmailInformation(props.viewer.emails, email)))
  }

  /** The notice has been dismissed. */
  predicate Dismissed(v: Viewer) {
    v.notice.Some? && StrTruthy(v.notice.value.dismissedAt)
  }

  /** The guards pass: a creator email, the prompt query on, the notice not dismissed. */
  predicate GuardsPass(props: Props, vars: Variables) {
    && props.build.createdBy.Some?
    && StrTruthy(CreatorEmail(props.build.createdBy.value))
    && vars.isTryingToPrompt
    && !Dismissed(props.viewer)
  }

  /** After the guards, the corrected prompt follows the classification of the creator's email. */
  lemma RenderContentClassified(props: Props, vars: Variables)
    requires GuardsPass(props, vars)
    ensures var email := CreatorEmail(props.build.createdBy.value).value;
            var edges := props.viewer.emails;
            var r := RenderContent(props, vars, false);
            && (!IsCurrentUsersEmail(edges, email) ==>
                  r == Normal(UnknownEmail(email, [AddEmail(email), Dismiss])))
            && (IsCurrentUsersEmail(edges, email) ==>
                  var i := FindIndex(edges, email).value;
                  (edges[i].node.verified ==> r == Normal(Hidden))
                  && (!edges[i].node.verified ==> r == Normal(VerifyEmail(email))))
  {
  }

  /** As written, the viewer's own email is always met with "Verify your email": the
      verified branch is never taken, and the prompt is hidden only by the guards. Any
      other email is met with the "Unknown email address" prompt, as in the corrected reading. */
  lemma AsWrittenNeverHidesVerified(props: Props, vars: Variables)
    requires GuardsPass(props, vars)
    ensures var email := CreatorEmail(props.build.createdBy.value).value;
            IsCurrentUsersEmail(props.viewer.emails, email) ==>
              RenderContentAsWritten(props, vars, false) == Normal(VerifyEmail(email))
    ensures var email := CreatorEmail(props.build.createdBy.value).value;
            !IsCurrentUsersEmail(props.viewer.emails, email) ==>
              RenderContentAsWritten(props, vars, false) == Normal(UnknownEmail(email, [AddEmail(email), Dismiss]))
    ensures RenderContentAsWritten(props, vars, false) != Normal(Hidden)
  {
  }

  /** A concrete case: the creator's email is the viewer's verified email, in another case. */
  lemma AsWrittenPromptsVerifiedEmail()
    ensures var props := Props(Build(Some(UnregisteredUser(Some("dev@example.com"), "Dev"))),
                               Viewer([EmailEdge(EmailNode("Dev@Example.com", true))], None));
            var vars := Variables(Some("dev@example.com"), true);
            && RenderContentAsWritten(props, vars, false) == Normal(VerifyEmail("dev@example.com"))
            && RenderContent(props, vars, false) == Normal(Hidden)
            && RenderAsWritten(props, vars, false)
               == Normal(AnchoredPopover(true, 400, props.build.createdBy, VerifyEmail("dev@example.com")))
            && Render(props, vars, false) == Normal(Avatar(props.build.createdBy))
  {
    var edges := [EmailEdge(EmailNode("Dev@Example.com", true))];
    assert Lower("Dev@Example.com") == "dev@example.com";
    assert Lower("dev@example.com") == "dev@example.com";
    assert Matches(edges[0], "dev@example.com");
    assert FindIndex(edges, "dev@example.com") == Some(0);
  }

  // ---------------------------------------------------------------------
  // render

  datatype View =
    | Avatar(user: Option<Creator>)
    | AnchoredPopover(alwaysShow: bool, width: int, user: Option<Creator>, content: Content)

  /** The avatar, wrapped in an always-shown popover 400 wide when there is content. */
  function Wrap(avatar: Option<Creator>, content: Completion<Content>): Completion<View> {
    match content
    case Threw(err) => Threw(err)
    case Normal(c) => Normal(if c != Hidden then AnchoredPopover(true, 400, avatar, c) else Avatar(avatar))
  }

  /** `render` as written, on the content of `renderContent` as written. */
  function RenderAsWritten(props: Props, vars: Variables, isAddingEmail: bool): (v: Completion<View>)
    ensures RenderContentAsWritten(props, vars, isAddingEmail).Threw? ==> v.Threw?
    ensures RenderContentAsWritten(props, vars, isAddingEmail).Normal? ==>
              var c := RenderContentAsWritten(props, vars, isAddingEmail).value;
              && v.Normal?
              && v.value.user == props.build.createdBy
              && (v.value.AnchoredPopover? <==> c != Hidden)
              && (v.value.AnchoredPopover? ==> v.value.content == c && v.value.alwaysShow && v.value.width == 400)
  {
    Wrap(props.build.createdBy, RenderContentAsWritten(props, vars, isAddingEmail))
  }

  /** `render` on the corrected content: the avatar inside a popover exactly when there is content. */
  function Render(props: Props, vars: Variables, isAddingEmail: bool): (v: Completion<View>)
    ensures RenderContent(props, vars, isAddingEmail).Threw? ==> v.Threw?
    ensures RenderContent(props, vars, isAddingEmail).Normal? ==>
              var c := RenderContent(props, vars, isAddingEmail).value;
              && v.Normal?
              && v.value.user == props.build.createdBy
              && (v.value.AnchoredPopover? <==> c != Hidden)
              && (v.value.AnchoredPopover? ==> v.value.content == c && v.value.alwaysShow && v.value.width == 400)
  {
    Wrap(props.build.createdBy, RenderContent(props, vars, isAddingEmail))
  }

  // ---------------------------------------------------------------------
  // The component and its local state

  /** The callbacks the mutations are committed with. */
  datatype Callback = EmailAddedSuccessHandler | MutationFailureHandler

  /** What the component asks of the outside world, in order. */
  datatype Effect =
    | SetVariables(variables: Variables)
    | SetAddingEmail(isAddingEmail: bool)
    | CommitEmailCreate(address: Option<string>, onSuccess: Option<Callback>, onFailure: Option<Callback>)
    | CommitNoticeDismiss(notice: Option<Notice>, onSuccess: Option<Callback>, onFailure: Option<Callback>)
    | ShowFlash(flash: Flash)

  class AvatarWithEmailPrompt {
    var props: Props
    var variables: Variables
    var isAddingEmail: bool
    var effects: seq<Effect>

    /** Once prompting, the prompt's email is set and lower-cased; before, it is unset. */
    ghost predicate Valid()
      reads this
    {
      if variables.isTryingToPrompt then
        variables.emailForPrompt.Some? && Lower(variables.emailForPrompt.value) == variables.emailForPrompt.value
      else
        variables.emailForPrompt.None?
    }

    constructor (props: Props)
      ensures Valid()
      ensures this.props == props && variables == InitialVariables
      ensures !isAddingEmail && effects == []
    {
      this.props := props;
      variables := InitialVariables;
      isAddingEmail := false;
      effects := [];
    }

    /** `componentWillReceiveProps`, followed by the switch to the new props. The prompt query
        is turned on when the new creator email is not among the current props' emails. */
    method ComponentWillReceiveProps(next: Props)
      requires Valid()
      modifies this
      ensures Valid()
      ensures props == next && isAddingEmail == old(isAddingEmail)
      ensures old(variables.isTryingToPrompt) ==> variables.isTryingToPrompt
      ensures var createdBy := next.build.createdBy;
              if createdBy.Some? && StrTruthy(CreatorEmail(createdBy.value))
                 && !IsCurrentUsersEmail(old(props).viewer.emails, CreatorEmail(createdBy.value).value)
              then
                var vars := Variables(Some(Lower(CreatorEmail(createdBy.value).value)), true);
                variables == vars && effects == old(effects) + [SetVariables(vars)]
              else
                variables == old(variables) && effects == old(effects)
    {
      var createdBy := next.build.createdBy;
      if createdBy.Some? && StrTruthy(CreatorEmail(createdBy.value)) {
        var email := CreatorEmail(createdBy.value).value;
        var info := GetUserEmailInformation(props.viewer.emails, email);
        if !info.isCurrentUsers {
          var vars := Variables(Some(Lower(email)), true);
          LowerIdempotent(email);
          variables := vars;
          effects := effects + [SetVariables(vars)];
        }
      }
      props := next;
    }

    /** `handleDismissClick`: commits the dismissal with a failure handler only. */
    method HandleDismissClick()
      requires Valid()
      modifies this
      ensures Valid()
      ensures effects == old(effects) + [CommitNoticeDismiss(props.viewer.notice, None, Some(MutationFailureHandler))]
      ensures props == old(props) && variables == old(variables) && isAddingEmail == old(isAddingEmail)
    {
      effects := effects + [CommitNoticeDismiss(props.viewer.notice, None, Some(MutationFailureHandler))];
    }

    /** `handleMutationFailure`, for either mutation: clears `isAddingEmail`, then pushes one ERROR flash. */
    method HandleMutationFailure(error: string)
      requires Valid()
      modifies this
      ensures Valid() && !isAddingEmail
      ensures effects == old(effects) + [SetAddingEmail(false), ShowFlash(Flash(ERROR, error))]
      ensures props == old(props) && variables == old(variables)
    {
      isAddingEmail := false;
      effects := effects + [SetAddingEmail(false)];
      effects := effects + [ShowFlash(Flash(ERROR, error))];
    }

    /** `handleAddEmailClick`: sets `isAddingEmail` before committing the new email. Its only
        caller is the Add button of the "Unknown email address" prompt, which `renderContent`
        builds only after destructuring a non-null `createdBy`; hence the precondition. */
    method HandleAddEmailClick()
      requires Valid()
      requires props.build.createdBy.Some?
      modifies this
      ensures Valid() && isAddingEmail
      ensures effects == old(effects) + [
        SetAddingEmail(true),
        CommitEmailCreate(CreatorEmail(old(props).build.createdBy.value),
                          Some(EmailAddedSuccessHandler), Some(MutationFailureHandler))
      ]
      ensures props == old(props) && variables == old(variables)
    {
      isAddingEmail := true;
      effects := effects + [SetAddingEmail(true)];
      var address := CreatorEmail(props.build.createdBy.value);
      effects := effects + [CommitEmailCreate(address, Some(EmailAddedSuccessHandler), Some(MutationFailureHandler))];
    }

    /** `handleEmailAddedSuccess`: clears `isAddingEmail`. */
    method HandleEmailAddedSuccess()
      requires Valid()
      modifies this
      ensures Valid() && !isAddingEmail
      ensures effects == old(effects) + [SetAddingEmail(false)]
      ensures props == old(props) && variables == old(variables)
    {
      isAddingEmail := false;
      effects := effects + [SetAddingEmail(false)];
    }
  }
}
