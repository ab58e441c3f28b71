/** The project form of components/ProjectForm.tsx: its initial state, the
    single-field merge, the MIME gate on image selection, the submit handler with
    its `isSubmitting` flag, and the submit button's wording.

    The browser and the network are abstract. What `fetchToken`, `uploadImage`
    and the GraphQL request settle to are inputs of the submit handler. The
    `FileReader`'s completion is a separate call (`ImageLoaded`). `alert`,
    `console.log`, `router.push` and the start of a file read are recorded, in
    order, as effects. */
module ProjectFormComponent {
  import opened CommonTypes
  import Actions

  // ---------------------------------------------------------------------------
  // Initial state
  // ---------------------------------------------------------------------------

  /** `project?.<field> || ""` */
  function InitialField(project: Option<Project>, f: Field): string
  {
    if project.Some? && project.value.Get(f) != "" then project.value.Get(f) else ""
  }

  /** The form the component starts with: every field empty when there is no
      project, and a copy of the project's fields when there is one (an empty
      field stays empty either way). */
  function InitialForm(project: Option<Project>): (form: ProjectForm)
    ensures project.None? ==> forall f :: form.Get(f) == ""
    ensures project.Some? ==> forall f :: form.Get(f) == project.value.Get(f)
  {
    ProjectForm(
      InitialField(project, Image),
      InitialField(project, Title),
      InitialField(project, Description),
      InitialField(project, LiveSiteUrl),
      InitialField(project, GithubUrl),
      InitialField(project, Category))
  }

  /** `project?.id as string`: `undefined` when there is no project. */
  function ProjectId(project: Option<Project>): Option<string>
  {
    if project.Some? then Some(project.value.id) else None
  }

  // ---------------------------------------------------------------------------
  // The MIME gate
  // ---------------------------------------------------------------------------

  /** A file the user picked; only its MIME type matters here. */
  datatype File = File(mimeType: string)

  /** `s.includes(t)` */
  function Includes(s: string, t: string): bool
    decreases |s|
  {
    if |t| > |s| then false
    else if s[..|t|] == t then true
    else Includes(s[1..], t)
  }

  ghost predicate OccursAt(s: string, t: string, i: int)
  {
    0 <= i && i + |t| <= |s| && s[i..i + |t|] == t
  }

  /** `Includes` holds exactly when `t` occurs somewhere in `s`. */
  lemma {:induction false} IncludesCorrect(s: string, t: string)
    ensures Includes(s, t) <==> exists i :: OccursAt(s, t, i)
    decreases |s|
  {
    if |t| > |s| {
    } else if s[..|t|] == t {
      assert OccursAt(s, t, 0);
    } else {
      IncludesCorrect(s[1..], t);
      if i :| OccursAt(s[1..], t, i) {
        assert s[i + 1..i + 1 + |t|] == s[1..][i..i + |t|];
        assert OccursAt(s, t, i + 1);
      }
      if i :| OccursAt(s, t, i) {
        assert i != 0;
        assert s[1..][i - 1..i - 1 + |t|] == s[i..i + |t|];
        assert OccursAt(s[1..], t, i - 1);
      }
    }
  }

  /** `file.type.includes("image")`: any MIME type containing `image`, not only
      those starting with `image/`. */
  predicate IsImageFile(file: File)
  {
    Includes(file.mimeType, "image")
  }

  // ---------------------------------------------------------------------------
  // Effects
  // ---------------------------------------------------------------------------

  /** The asynchronous call the submit handler dispatches. */
  datatype Call = CallCreateNewProject | CallUpdateProject

  /** What the handlers do outside the form state, in order. */
  datatype Effect =
    | SetSubmitting(on: bool)
    | FetchToken
    | Dispatch(call: Call)
    | Navigate(path: string)
    | Log(error: string)
    | Alert(message: string)
    | ReadAsDataUrl(file: File)

  const ImageAlert: string := "Please upload an image file"

  /** What `handleChangeImage` does for the file picked, if any: nothing without
      a file, an alert for a non-image file, and otherwise a read of the file as
      a data URL. */
  function ImageEffects(file: Option<File>): (es: seq<Effect>)
    ensures file.None? ==> es == []
    ensures file.Some? && !IsImageFile(file.value) ==> es == [Alert(ImageAlert)]
    ensures file.Some? && IsImageFile(file.value) ==> es == [ReadAsDataUrl(file.value)]
    ensures forall e :: e in es ==> !e.SetSubmitting?
  {
    match file
    case None => []
    case Some(f) => if !Includes(f.mimeType, "image") then [Alert(ImageAlert)] else [ReadAsDataUrl(f)]
  }

  /** The value of `isSubmitting` after a run of effects: the last value set, or
      the initial `false`. */
  function SubmittingAfter(es: seq<Effect>): bool
  {
    if es == [] then false
    else if es[|es| - 1].SetSubmitting? then es[|es| - 1].on
    else SubmittingAfter(es[..|es| - 1])
  }

  lemma {:induction false} SubmittingAfterAppend(a: seq<Effect>, b: seq<Effect>)
    requires forall e :: e in b ==> !e.SetSubmitting?
    ensures SubmittingAfter(a + b) == SubmittingAfter(a)
    decreases |b|
  {
    if b != [] {
      var init := b[..|b| - 1];
      assert b[|b| - 1] in b;
      assert (a + b)[|a + b| - 1] == b[|b| - 1];
      assert (a + b)[..|a + b| - 1] == a + init;
      assert forall e :: e in init ==> e in b;
      SubmittingAfterAppend(a, init);
    } else {
      assert a + b == a;
    }
  }

  // ---------------------------------------------------------------------------
  // Submission
  // ---------------------------------------------------------------------------

  /** What `fetchToken` settles to. */
  datatype TokenReply = Token(token: string) | TokenFailed(reason: string)

  /** The call made for a form type: `create` and `edit` each have one, any other
      type has none. */
  function CallFor(kind: string): (call: Option<Call>)
    ensures call == Some(CallCreateNewProject) <==> kind == "create"
    ensures call == Some(CallUpdateProject) <==> kind == "edit"
  {
    if kind == "create" then Some(CallCreateNewProject)
    else if kind == "edit" then Some(CallUpdateProject)
    else None
  }

  /** What the dispatched call settles to. */
  function CallOutcome(call: Call, form: ProjectForm, upload: Actions.Upload, reply: Actions.Reply): Actions.Settled
  {
    match call
    case CallCreateNewProject => Actions.CreateOutcome(upload, reply)
    case CallUpdateProject => Actions.UpdateOutcome(form, upload, reply)
  }

  /** The effects of the `try` block once the token is in: dispatch the call for
      the form type, then navigate home when it completes or log what it threw. */
  function AttemptEffects(kind: string, outcome: Actions.Settled): seq<Effect>
  {
    match CallFor(kind)
    case None => []
    case Some(call) =>
      [Dispatch(call)] + if outcome.Resolved? then [Navigate("/")] else [Log(outcome.reason)]
  }

  /** What the call dispatched for `kind` settles to (nothing is awaited for a
      type without a call). */
  function SubmitOutcome(kind: string, form: ProjectForm, upload: Actions.Upload, reply: Actions.Reply): Actions.Settled
  {
    if CallFor(kind).Some? then CallOutcome(CallFor(kind).value, form, upload, reply) else Actions.Resolved(None)
  }

  /** The effects of one run of `handleSubmit`, given what the dispatched call
      settles to. */
  function SubmitEffects(kind: string, fetched: TokenReply, outcome: Actions.Settled): (es: seq<Effect>)
    ensures |es| >= 2 && es[0] == SetSubmitting(true) && es[1] == FetchToken
    ensures fetched.TokenFailed? ==> SetSubmitting(false) !in es
    ensures fetched.Token? ==> es[|es| - 1] == SetSubmitting(false)
    ensures Dispatch(CallCreateNewProject) in es <==> fetched.Token? && kind == "create"
    ensures Dispatch(CallUpdateProject) in es <==> fetched.Token? && kind == "edit"
    ensures Navigate("/") in es <==> fetched.Token? && CallFor(kind).Some? && outcome.Resolved?
    ensures forall i :: 0 <= i < |es| && es[i].Navigate? ==> 0 < i && es[i - 1].Dispatch?
    ensures forall e :: e in es && e.Log? ==> fetched.Token? && CallFor(kind).Some? && outcome == Actions.Rejected(e.error)
    ensures fetched.Token? && CallFor(kind).Some? && outcome.Rejected? ==> Log(outcome.reason) in es
  {
    [SetSubmitting(true), FetchToken] +
    if fetched.TokenFailed? then [] else AttemptEffects(kind, outcome) + [SetSubmitting(false)]
  }

  /** `isSubmitting` ends `false` after a submit exactly when `fetchToken`
      resolved; a failing `fetchToken` leaves it `true`. */
  lemma SubmitLeavesFlag(before: seq<Effect>, kind: string, fetched: TokenReply, outcome: Actions.Settled)
    ensures SubmittingAfter(before + SubmitEffects(kind, fetched, outcome)) == fetched.TokenFailed?
  {
    var es := before + SubmitEffects(kind, fetched, outcome);
    if fetched.TokenFailed? {
      assert es[..|es| - 1] == before + [SetSubmitting(true)];
    }
  }

  /** The mutation the submit handler causes on the shared client, if any. */
  function SubmittedOperation(
    kind: string, fetched: TokenReply, form: ProjectForm, creatorId: Option<string>, projectId: Option<string>,
    upload: Actions.Upload): (op: Option<Actions.Operation>)
    ensures fetched.TokenFailed? ==> op.None?
    ensures op.Some? ==> (op.value.CreateProjectMutation? <==> kind == "create")
    ensures op.Some? ==> (op.value.UpdateProjectMutation? <==> kind == "edit")
    ensures op.Some? ==> CallFor(kind).Some?
    ensures fetched.Token? && kind == "create" ==> op == Actions.CreateCall(form, creatorId, upload)
    ensures fetched.Token? && kind == "edit" ==> op == Actions.UpdateCall(form, projectId, upload)
  {
    if fetched.TokenFailed? then None
    else if kind == "create" then Actions.CreateCall(form, creatorId, upload)
    else if kind == "edit" then Actions.UpdateCall(form, projectId, upload)
    else None
  }

  /** A create whose upload returns no url sends nothing and still navigates home. */
  lemma SkippedCreateStillNavigates(form: ProjectForm, creatorId: Option<string>, token: string, reply: Actions.Reply)
    ensures SubmittedOperation("create", Token(token), form, creatorId, None, Actions.Uploaded(None)).None?
    ensures Navigate("/") in
              SubmitEffects("create", Token(token), CallOutcome(CallCreateNewProject, form, Actions.Uploaded(None), reply))
  {
  }

  // ---------------------------------------------------------------------------
  // The submit button
  // ---------------------------------------------------------------------------

  datatype SubmitButton = SubmitButton(title: string, leftIcon: string, submitting: bool)

  /** The submit button: "Creating"/"Editing" while submitting, "Create"/"Edit"
      otherwise, with the create wording for `create` only. */
  function SubmitButtonFor(kind: string, isSubmitting: bool): (b: SubmitButton)
    ensures b.title in ["Creating", "Editing", "Create", "Edit"]
    ensures (b.title == "Creating" || b.title == "Create") <==> kind == "create"
    ensures (b.title == "Creating" || b.title == "Editing") <==> isSubmitting
    ensures (b.leftIcon == "") <==> isSubmitting
    ensures b.submitting == isSubmitting
  {
    SubmitButton(
      if isSubmitting then (if kind == "create" then "Creating" else "Editing")
      else (if kind == "create" then "Create" else "Edit"),
      if isSubmitting then "" else "/plus.svg",
      isSubmitting)
  }

  /** A form type other than `create` and `edit` shows the Edit wording, yet
      submitting it dispatches nothing. */
  lemma OtherKindShowsEditButDispatchesNothing(kind: string, isSubmitting: bool)
    requires kind != "create" && kind != "edit"
    ensures SubmitButtonFor(kind, isSubmitting).title in ["Editing", "Edit"]
    ensures CallFor(kind).None?
  {
  }

  // ---------------------------------------------------------------------------
  // The component
  // ---------------------------------------------------------------------------

  /** The component's state: the props it was given, `form`, `isSubmitting`,
      and the effects performed so far. */
  class ProjectFormState {
    const kind: string
    const creatorId: Option<string>
    const project: Option<Project>
    var form: ProjectForm
    var isSubmitting: bool
    var effects: seq<Effect>

    /** `isSubmitting` is the last value the handlers set. */
    ghost predicate Valid()
      reads this
    {
      isSubmitting == SubmittingAfter(effects)
    }

    constructor (kind: string, creatorId: Option<string>, project: Option<Project>)
      ensures Valid()
      ensures this.kind == kind && this.creatorId == creatorId && this.project == project
      ensures form == InitialForm(project) && !isSubmitting && effects == []
    {
      this.kind := kind;
      this.creatorId := creatorId;
      this.project := project;
      form := InitialForm(project);
      isSubmitting := false;
      effects := [];
    }

    /** `handleStateChange(fieldName, value)` */
    method HandleStateChange(f: Field, value: string)
      requires Valid()
      modifies this
      ensures Valid()
      ensures form == old(form).With(f, value)
      ensures isSubmitting == old(isSubmitting) && effects == old(effects)
    {
      form := form.With(f, value);
    }

    /** `handleChangeImage`: without a file nothing happens; a file whose type
        does not contain `image` raises the alert; otherwise a read starts. */
    method HandleChangeImage(file: Option<File>)
      requires Valid()
      modifies this
      ensures Valid()
      ensures form == old(form) && isSubmitting == old(isSubmitting)
      ensures effects == old(effects) + ImageEffects(file)
    {
      if file.None? {
        assert ImageEffects(file) == [];
        assert effects + [] == effects;
        return;
      }
      var picked := file.value;
      if !Includes(picked.mimeType, "image") {
        effects := effects + [Alert(ImageAlert)];
      } else {
        effects := effects + [ReadAsDataUrl(picked)];
      }
      SubmittingAfterAppend(old(effects), ImageEffects(file));
    }

    /** The reader's `onload`: the data URL becomes the form's image. */
    method ImageLoaded(result: string)
      requires Valid()
      modifies this
      ensures Valid()
      ensures form == old(form).With(Image, result)
      ensures isSubmitting == old(isSubmitting) && effects == old(effects)
    {
      HandleStateChange(Image, result);
    }

    /** The `try` block of `handleSubmit`, once the token is in: await the
        call for the form type, then navigate home, or log what it threw. */
    method Attempt(client: Actions.Client, token: string, upload: Actions.Upload, reply: Actions.Reply)
      modifies this, client
      ensures form == old(form) && isSubmitting == old(isSubmitting)
      ensures effects == old(effects) + AttemptEffects(kind, SubmitOutcome(kind, form, upload, reply))
      ensures var op := SubmittedOperation(kind, Token(token), form, creatorId, ProjectId(project), upload);
              && (op.None? ==> client.headers == old(client.headers) && client.sent == old(client.sent))
              && (op.Some? ==> Actions.SentUnderPolicy(client, old(client.headers), old(client.sent), op.value, token))
    {
      if kind == "create" {
        effects := effects + [Dispatch(CallCreateNewProject)];
        var r, _ := Actions.CreateNewProject(client, form, creatorId, token, upload, reply);
        effects := effects + if r.Resolved? then [Navigate("/")] else [Log(r.reason)];
      } else if kind == "edit" {
        effects := effects + [Dispatch(CallUpdateProject)];
        var r, _ := Actions.UpdateProject(client, form, ProjectId(project), token, upload, reply);
        effects := effects + if r.Resolved? then [Navigate("/")] else [Log(r.reason)];
      }
    }

    /** `handleSubmit`: set the flag, await the token outside the `try`, run
        the `try` block, and clear the flag in `finally`. The result is what the
        handler's own promise settles to: it rejects only when `fetchToken`
        does, and then the flag stays set. */
    method HandleSubmit(client: Actions.Client, fetched: TokenReply, upload: Actions.Upload, reply: Actions.Reply)
      returns (handled: Actions.Settled)
      requires Valid()
      modifies this, client
      ensures Valid()
      ensures form == old(form)
      ensures effects == old(effects) + SubmitEffects(kind, fetched, SubmitOutcome(kind, form, upload, reply))
      ensures isSubmitting == fetched.TokenFailed?
      ensures handled.Rejected? <==> fetched.TokenFailed?
      ensures var op := SubmittedOperation(kind, fetched, form, creatorId, ProjectId(project), upload);
              && (op.None? ==> client.headers == old(client.headers) && client.sent == old(client.sent))
              && (op.Some? ==> Actions.SentUnderPolicy(client, old(client.headers), old(client.sent), op.value, fetched.token))
    {
      ghost var before := effects;
      ghost var outcome := SubmitOutcome(kind, form, upload, reply);
      isSubmitting := true;
      effects := effects + [SetSubmitting(true), FetchToken];
      match fetched {
        case TokenFailed(reason) =>
          handled := Actions.Rejected(reason);
        case Token(token) =>
          Attempt(client, token, upload, reply);
          isSubmitting := false;
          effects := effects + [SetSubmitting(false)];
          handled := Actions.Resolved(None);
      }
      SubmitLeavesFlag(before, kind, fetched, outcome);
    }
  }
}
