/** The two template models, `JobTemplateModel` and `WorkflowJobTemplateModel`:
    their field declarations, construction from keyword arguments, and the
    `model_dump` override that turns `extra_vars` into JSON text and `job_tags`
    into a comma-joined string. */
module Models {
  import opened Wrappers
  import opened Json
  import opened Schema

  /** The fields declared by either model. `Key()` is the attribute name, which
      is also the key of the field in `model_dump` and in the JSON payload. */
  datatype FieldName =
    | Name
    | Description
    | JobType
    | Inventory
    | Project
    | Playbook
    | ScmBranch
    | Forks
    | Limit
    | Verbosity
    | ExtraVars
    | JobTags
    | ForceHandlers
    | SkipTags
    | StartAtTask
    | Timeout
    | UseFactCache
    | ExecutionEnvironment
    | HostConfigKey
    | AskScmBranchOnLaunch
    | AskDiffModeOnLaunch
    | AskVariablesOnLaunch
    | AskLimitOnLaunch
    | AskTagsOnLaunch
    | AskSkipTagsOnLaunch
    | AskJobTypeOnLaunch
    | AskVerbosityOnLaunch
    | AskInventoryOnLaunch
    | AskCredentialOnLaunch
    | AskExecutionEnvironmentOnLaunch
    | AskLabelsOnLaunch
    | AskForksOnLaunch
    | AskJobSliceCountOnLaunch
    | AskTimeoutOnLaunch
    | AskInstanceGroupsOnLaunch
    | SurveyEnabled
    | BecomeEnabled
    | DiffMode
    | AllowSimultaneous
    | JobSliceCount
    | WebhookService
    | WebhookCredential
    | PreventInstanceGroupFallback
    | Organization
  {
    function Key(): string {
      match this
      case Name => "name"
      case Description => "description"
      case JobType => "job_type"
      case Inventory => "inventory"
      case Project => "project"
      case Playbook => "playbook"
      case ScmBranch => "scm_branch"
      case Forks => "forks"
      case Limit => "limit"
      case Verbosity => "verbosity"
      case ExtraVars => "extra_vars"
      case JobTags => "job_tags"
      case ForceHandlers => "force_handlers"
      case SkipTags => "skip_tags"
      case StartAtTask => "start_at_task"
      case Timeout => "timeout"
      case UseFactCache => "use_fact_cache"
      case ExecutionEnvironment => "execution_environment"
      case HostConfigKey => "host_config_key"
      case AskScmBranchOnLaunch => "ask_scm_branch_on_launch"
      case AskDiffModeOnLaunch => "ask_diff_mode_on_launch"
      case AskVariablesOnLaunch => "ask_variables_on_launch"
      case AskLimitOnLaunch => "ask_limit_on_launch"
      case AskTagsOnLaunch => "ask_tags_on_launch"
      case AskSkipTagsOnLaunch => "ask_skip_tags_on_launch"
      case AskJobTypeOnLaunch => "ask_job_type_on_launch"
      case AskVerbosityOnLaunch => "ask_verbosity_on_launch"
      case AskInventoryOnLaunch => "ask_inventory_on_launch"
      case AskCredentialOnLaunch => "ask_credential_on_launch"
      case AskExecutionEnvironmentOnLaunch => "ask_execution_environment_on_launch"
      case AskLabelsOnLaunch => "ask_labels_on_launch"
      case AskForksOnLaunch => "ask_forks_on_launch"
      case AskJobSliceCountOnLaunch => "ask_job_slice_count_on_launch"
      case AskTimeoutOnLaunch => "ask_timeout_on_launch"
      case AskInstanceGroupsOnLaunch => "ask_instance_groups_on_launch"
      case SurveyEnabled => "survey_enabled"
      case BecomeEnabled => "become_enabled"
      case DiffMode => "diff_mode"
      case AllowSimultaneous => "allow_simultaneous"
      case JobSliceCount => "job_slice_count"
      case WebhookService => "webhook_service"
      case WebhookCredential => "webhook_credential"
      case PreventInstanceGroupFallback => "prevent_instance_group_fallback"
      case Organization => "organization"
    }
  }

  /** Every field name, so that a declaration map has a finite domain to range over. */
  const AllFieldNames: set<FieldName> := {
    Name, Description, JobType, Inventory, Project,
    Playbook, ScmBranch, Forks, Limit, Verbosity,
    ExtraVars, JobTags, ForceHandlers, SkipTags, StartAtTask,
    Timeout, UseFactCache, ExecutionEnvironment, HostConfigKey, AskScmBranchOnLaunch,
    AskDiffModeOnLaunch, AskVariablesOnLaunch, AskLimitOnLaunch, AskTagsOnLaunch, AskSkipTagsOnLaunch,
    AskJobTypeOnLaunch, AskVerbosityOnLaunch, AskInventoryOnLaunch, AskCredentialOnLaunch, AskExecutionEnvironmentOnLaunch,
    AskLabelsOnLaunch, AskForksOnLaunch, AskJobSliceCountOnLaunch, AskTimeoutOnLaunch, AskInstanceGroupsOnLaunch,
    SurveyEnabled, BecomeEnabled, DiffMode, AllowSimultaneous, JobSliceCount,
    WebhookService, WebhookCredential, PreventInstanceGroupFallback, Organization
  }

  /** The fields a job template cannot do without. */
  const JobTemplateReferences: set<FieldName> := {Name, Inventory, Project, Playbook}

  /** The members of `JobTypeEnum`. */
  const JobTypes: set<string> := {"run", "check", "scan"}

  /** The members of `WebhookServiceEnum`. */
  const WebhookServices: set<string> := {"github", "gitlab"}

  /** `str = Field(default="")`. */
  function Text(): FieldSpec {
    WithDefault(StrKind, Str(""))
  }

  /** `bool = Field(default=False)`. */
  function Flag(): FieldSpec {
    WithDefault(BoolKind, Bool(false))
  }

  /** `str | None = Field(default=None)`. */
  function Unset(): FieldSpec {
    WithDefault(Optional(StrKind), Null)
  }

  /** `dict = Field(default={})`. */
  function NoVars(): FieldSpec {
    WithDefault(DictKind, Object(map[]))
  }

  /** `set = Field(default=set())`. */
  function NoTags(): FieldSpec {
    WithDefault(SetKind, Set({}))
  }

  /** `WebhookServiceEnum | None = Field(default=None)`. */
  function NoWebhookService(): FieldSpec {
    WithDefault(Optional(EnumKind(WebhookServices)), Null)
  }

  /** The declarations of `JobTemplateModel`. */
  function JobTemplateDeclaration(f: FieldName): Option<FieldSpec> {
    match f
    case Name => Some(RequiredStr())
    case Description => Some(Text())
    case JobType => Some(WithDefault(EnumKind(JobTypes), Str("run")))
    case Inventory => Some(RequiredStr())
    case Project => Some(RequiredStr())
    case Playbook => Some(RequiredStr())
    case ScmBranch => Some(Text())
    case Forks => Some(BoundedInt(0, 0, None))
    case Limit => Some(Text())
    case Verbosity => Some(BoundedInt(0, 0, Some(5)))
    case ExtraVars => Some(NoVars())
    case JobTags => Some(NoTags())
    case ForceHandlers => Some(Flag())
    case SkipTags => Some(Text())
    case StartAtTask => Some(Text())
    case Timeout => Some(BoundedInt(0, 0, None))
    case UseFactCache => Some(Flag())
    case ExecutionEnvironment => Some(Unset())
    case HostConfigKey => Some(Text())
    case AskScmBranchOnLaunch => Some(Flag())
    case AskDiffModeOnLaunch => Some(Flag())
    case AskVariablesOnLaunch => Some(Flag())
    case AskLimitOnLaunch => Some(Flag())
    case AskTagsOnLaunch => Some(Flag())
    case AskSkipTagsOnLaunch => Some(Flag())
    case AskJobTypeOnLaunch => Some(Flag())
    case AskVerbosityOnLaunch => Some(Flag())
    case AskInventoryOnLaunch => Some(Flag())
    case AskCredentialOnLaunch => Some(Flag())
    case AskExecutionEnvironmentOnLaunch => Some(Flag())
    case AskLabelsOnLaunch => Some(Flag())
    case AskForksOnLaunch => Some(Flag())
    case AskJobSliceCountOnLaunch => Some(Flag())
    case AskTimeoutOnLaunch => Some(Flag())
    case AskInstanceGroupsOnLaunch => Some(Flag())
    case SurveyEnabled => Some(Flag())
    case BecomeEnabled => Some(Flag())
    case DiffMode => Some(Flag())
    case AllowSimultaneous => Some(Flag())
    case JobSliceCount => Some(BoundedInt(1, 1, None))
    case WebhookService => Some(NoWebhookService())
    case WebhookCredential => Some(Unset())
    case PreventInstanceGroupFallback => Some(Flag())
    case Organization => None
  }

  /** The declarations of `WorkflowJobTemplateModel`. */
  function WorkflowJobTemplateDeclaration(f: FieldName): Option<FieldSpec> {
    match f
    case Name => Some(RequiredStr())
    case Description => Some(Text())
    case ExtraVars => Some(NoVars())
    case Organization => Some(Unset())
    case SurveyEnabled => Some(Flag())
    case AllowSimultaneous => Some(Flag())
    case AskVariablesOnLaunch => Some(Flag())
    case Inventory => Some(Unset())
    case Limit => Some(Text())
    case ScmBranch => Some(Text())
    case AskInventoryOnLaunch => Some(Flag())
    case AskScmBranchOnLaunch => Some(Flag())
    case AskLimitOnLaunch => Some(Flag())
    case WebhookService => Some(NoWebhookService())
    case WebhookCredential => Some(Unset())
    case AskLabelsOnLaunch => Some(Flag())
    case AskSkipTagsOnLaunch => Some(Flag())
    case AskTagsOnLaunch => Some(Flag())
    case SkipTags => Some(Text())
    case JobTags => Some(NoTags())
    case _ => None
  }

  lemma FieldNameListed(f: FieldName)
    ensures f in AllFieldNames
  {
  }

  /** A model class a resource can be bound to. */
  datatype ModelClass = JobTemplateModel | WorkflowJobTemplateModel {
    function Declaration(f: FieldName): Option<FieldSpec> {
      match this
      case JobTemplateModel => JobTemplateDeclaration(f)
      case WorkflowJobTemplateModel => WorkflowJobTemplateDeclaration(f)
    }
  }

  /** An instance of a model class: the value of each declared field. */
  datatype Model = Model(cls: ModelClass, fields: map<FieldName, Value>) {
    /** Holds exactly the declared fields, each as declared. */
    ghost predicate Valid() {
      && (forall f :: f in fields <==> cls.Declaration(f).Some?)
      && (forall f :: f in fields ==> cls.Declaration(f).value.Accepts(fields[f]))
    }

    /** Field `f` holds `v`. */
    predicate Has(f: FieldName, v: Value) {
      f in fields && fields[f] == v
    }

    function Vars(): Dict
      requires Valid()
    {
      assert cls.Declaration(ExtraVars) == Some(NoVars());
      fields[ExtraVars].fields
    }

    function Tags(): set<string>
      requires Valid()
    {
      assert cls.Declaration(JobTags) == Some(NoTags());
      fields[JobTags].elems
    }
  }

  /** Every declared default satisfies its own declaration. pydantic does not
      check defaults, so this is what makes a model built from defaults valid. */
  lemma DefaultAccepted(cls: ModelClass, f: FieldName)
    requires cls.Declaration(f).Some? && cls.Declaration(f).value.default.Some?
    ensures cls.Declaration(f).value.Accepts(cls.Declaration(f).value.default.value)
  {
    match cls
    case JobTemplateModel => JobTemplateDefaultAccepted(f);
    case WorkflowJobTemplateModel => WorkflowJobTemplateDefaultAccepted(f);
  }

  lemma JobTemplateDefaultAccepted(f: FieldName)
    requires JobTemplateDeclaration(f).Some? && JobTemplateDeclaration(f).value.default.Some?
    ensures JobTemplateDeclaration(f).value.Accepts(JobTemplateDeclaration(f).value.default.value)
  {
  }

  lemma WorkflowJobTemplateDefaultAccepted(f: FieldName)
    requires WorkflowJobTemplateDeclaration(f).Some? && WorkflowJobTemplateDeclaration(f).value.default.Some?
    ensures WorkflowJobTemplateDeclaration(f).value.Accepts(WorkflowJobTemplateDeclaration(f).value.default.value)
  {
  }

  /** Every field `cls` declares is admissible among the keyword arguments `kw`. */
  predicate AllAdmissible(cls: ModelClass, kw: map<FieldName, Value>) {
    forall f :: cls.Declaration(f).Some? ==> Admissible(cls.Declaration(f).value, kw, f)
  }

  /** `JobTemplateModel(**kw)` or `WorkflowJobTemplateModel(**kw)`: succeeds
      exactly when every declared field is admissible, and then yields a model
      of that class; keywords the class does not declare are ignored. That
      the model is valid, holds each supplied value and each other default,
      and that a failure names the inadmissible fields, is proved below. */
  function Construct(cls: ModelClass, kw: map<FieldName, Value>): (r: Result<Model, ValidationError<FieldName>>)
    ensures r.Success? <==> AllAdmissible(cls, kw)
    ensures r.Success? ==> r.value.cls == cls
  {
    if AllAdmissible(cls, kw) then
      Success(Model(cls, map f | f in AllFieldNames && cls.Declaration(f).Some? ::
        if f in kw then kw[f] else cls.Declaration(f).value.default.value))
    else
      Failure(ValidationError(set f | f in AllFieldNames && cls.Declaration(f).Some? && !Admissible(cls.Declaration(f).value, kw, f)))
  }

  /** A constructed model is valid: it holds exactly the declared fields,
      each with a value its declaration accepts. */
  lemma ConstructValid(cls: ModelClass, kw: map<FieldName, Value>)
    requires Construct(cls, kw).Success?
    ensures Construct(cls, kw).value.Valid()
  {
    var m := Construct(cls, kw).value;
    forall f ensures f in m.fields <==> cls.Declaration(f).Some? {
      FieldNameListed(f);
    }
    forall f | f in m.fields ensures cls.Declaration(f).value.Accepts(m.fields[f]) {
      assert Admissible(cls.Declaration(f).value, kw, f);
      if f !in kw {
        DefaultAccepted(cls, f);
      }
    }
  }

  /** A failed construction names at least one field, and only declared
      fields that are not admissible. */
  lemma ConstructFailure(cls: ModelClass, kw: map<FieldName, Value>)
    requires Construct(cls, kw).Failure?
    ensures Construct(cls, kw).error.fields != {}
    ensures forall f :: f in Construct(cls, kw).error.fields ==>
      cls.Declaration(f).Some? && !Admissible(cls.Declaration(f).value, kw, f)
  {
    var f :| cls.Declaration(f).Some? && !Admissible(cls.Declaration(f).value, kw, f);
    FieldNameListed(f);
    assert f in Construct(cls, kw).error.fields;
  }

  /** When every declared field but `g` is admissible, construction succeeds
      exactly when `g` is too. */
  lemma DecidedBy(cls: ModelClass, kw: map<FieldName, Value>, g: FieldName)
    requires cls.Declaration(g).Some?
    requires forall f :: cls.Declaration(f).Some? && f != g ==> Admissible(cls.Declaration(f).value, kw, f)
    ensures AllAdmissible(cls, kw) <==> Admissible(cls.Declaration(g).value, kw, g)
  {
  }

  /** `sep.join(parts)`. */
  function Join(parts: seq<string>, sep: char): string {
    if |parts| == 0 then ""
    else if |parts| == 1 then parts[0]
    else parts[0] + [sep] + Join(parts[1..], sep)
  }

  /** `s.split(sep)`, the inverse against which `Join` is checked. */
  function Split(s: string, sep: char): (r: seq<string>)
    ensures |r| >= 1
  {
    if |s| == 0 then [""]
    else if s[0] == sep then [""] + Split(s[1..], sep)
    else
      var rest := Split(s[1..], sep);
      [[s[0]] + rest[0]] + rest[1..]
  }

  /** `order` is an iteration order of the set `s`: each member once. */
  predicate Enumerates(order: seq<string>, s: set<string>) {
    && (forall i, j :: 0 <= i < j < |order| ==> order[i] != order[j])
    && (forall i :: 0 <= i < |order| ==> order[i] in s)
    && (forall t :: t in s ==> t in order)
  }

  /** The `model_dump` override of both models: the pydantic dump with
      `extra_vars` replaced by `json.dumps` of it and `job_tags` by the tags
      joined with ",". `dumps` stands for `json.dumps`, and `tagOrder` for the
      order in which the interpreter iterates the tag set. */
  function ModelDump(m: Model, dumps: Dict -> string, tagOrder: seq<string>): (d: map<FieldName, Value>)
    requires m.Valid()
    requires Enumerates(tagOrder, m.Tags())
    ensures d.Keys == m.fields.Keys
    ensures forall f :: f in d ==> m.cls.Declaration(f).Some?
    ensures forall f :: f in d && f != ExtraVars && f != JobTags ==> d[f] == m.fields[f]
    ensures ExtraVars in d && d[ExtraVars] == Str(dumps(m.Vars()))
    ensures JobTags in d && d[JobTags] == Str(Join(tagOrder, ','))
  {
    m.fields[ExtraVars := Str(dumps(m.Vars()))][JobTags := Str(Join(tagOrder, ','))]
  }

  // ---------------------------------------------------------------------------
  // Properties of the declarations

  /** Builder for the lemmas below: the keyword arguments that supply exactly
      the required fields of a job template. */
  function JobTemplateRequiredArgs(name: string, inventory: string, project: string, playbook: string): (kw: map<FieldName, Value>)
    ensures kw.Keys == JobTemplateReferences
    ensures kw[Name] == Str(name) && kw[Inventory] == Str(inventory)
    ensures kw[Project] == Str(project) && kw[Playbook] == Str(playbook)
  {
    map[Name := Str(name), Inventory := Str(inventory), Project := Str(project), Playbook := Str(playbook)]
  }

  /** Proof step: a field a valid job template declares is present and accepted. */
  lemma JobTemplateHolds(m: Model, f: FieldName)
    requires m.cls == JobTemplateModel && m.Valid() && JobTemplateDeclaration(f).Some?
    ensures f in m.fields && JobTemplateDeclaration(f).value.Accepts(m.fields[f])
  {
  }

  /** A valid job template keeps `verbosity` in 0..5, `forks` and `timeout`
      non-negative and `job_slice_count` at least 1. */
  lemma JobTemplateBounds(m: Model)
    requires m.cls == JobTemplateModel && m.Valid()
    ensures Verbosity in m.fields && m.fields[Verbosity].Int? && 0 <= m.fields[Verbosity].i <= 5
    ensures Forks in m.fields && m.fields[Forks].Int? && m.fields[Forks].i >= 0
    ensures Timeout in m.fields && m.fields[Timeout].Int? && m.fields[Timeout].i >= 0
    ensures JobSliceCount in m.fields && m.fields[JobSliceCount].Int? && m.fields[JobSliceCount].i >= 1
  {
    JobTemplateHolds(m, Verbosity);
    JobTemplateIntDeclared(Verbosity, m.fields[Verbosity]);
    JobTemplateHolds(m, Forks);
    JobTemplateIntDeclared(Forks, m.fields[Forks]);
    JobTemplateHolds(m, Timeout);
    JobTemplateIntDeclared(Timeout, m.fields[Timeout]);
    JobTemplateHolds(m, JobSliceCount);
    JobTemplateIntDeclared(JobSliceCount, m.fields[JobSliceCount]);
  }

  /** What the declarations of the four bounded integer fields accept. */
  lemma JobTemplateIntDeclared(f: FieldName, v: Value)
    requires f in {Verbosity, Forks, Timeout, JobSliceCount}
    ensures JobTemplateDeclaration(f).Some?
    ensures JobTemplateDeclaration(f).value.Accepts(v) <==>
      v.Int? && if f == Verbosity then 0 <= v.i <= 5 else if f == JobSliceCount then v.i >= 1 else v.i >= 0
  {
  }

  /** A valid job template has a `job_type` of `JobTypeEnum`, and its four
      references are strings. */
  lemma JobTemplateChoices(m: Model)
    requires m.cls == JobTemplateModel && m.Valid()
    ensures JobType in m.fields && m.fields[JobType].Str? && m.fields[JobType].s in JobTypes
    ensures forall f :: f in JobTemplateReferences ==> f in m.fields && m.fields[f].Str?
  {
    JobTemplateHolds(m, JobType);
    forall f | f in JobTemplateReferences
      ensures f in m.fields && m.fields[f].Str?
    {
      JobTemplateHolds(m, f);
    }
  }

  /** `name`, `inventory`, `project` and `playbook` must be supplied, as strings. */
  lemma JobTemplateNeedsReferences(kw: map<FieldName, Value>)
    requires Construct(JobTemplateModel, kw).Success?
    ensures Name in kw && kw[Name].Str?
    ensures Inventory in kw && kw[Inventory].Str?
    ensures Project in kw && kw[Project].Str?
    ensures Playbook in kw && kw[Playbook].Str?
  {
    ReferencesSupplied(kw);
  }

  lemma ReferencesSupplied(kw: map<FieldName, Value>)
    requires AllAdmissible(JobTemplateModel, kw)
    ensures Name in kw && kw[Name].Str?
    ensures Inventory in kw && kw[Inventory].Str?
    ensures Project in kw && kw[Project].Str?
    ensures Playbook in kw && kw[Playbook].Str?
  {
    assert Admissible(JobTemplateModel.Declaration(Name).value, kw, Name);
    assert Admissible(JobTemplateModel.Declaration(Inventory).value, kw, Inventory);
    assert Admissible(JobTemplateModel.Declaration(Project).value, kw, Project);
    assert Admissible(JobTemplateModel.Declaration(Playbook).value, kw, Playbook);
  }

  /** A successful construction found every declared field admissible. */
  lemma Admits(cls: ModelClass, kw: map<FieldName, Value>, f: FieldName)
    requires Construct(cls, kw).Success? && cls.Declaration(f).Some?
    ensures Admissible(cls.Declaration(f).value, kw, f)
  {
  }

  /** A successful construction holds each supplied declared field as given. */
  lemma Supplied(cls: ModelClass, kw: map<FieldName, Value>, f: FieldName)
    requires Construct(cls, kw).Success? && cls.Declaration(f).Some? && f in kw
    ensures Construct(cls, kw).value.Has(f, kw[f])
  {
  }

  /** A successful construction gives each declared field not supplied its default. */
  lemma Defaulted(cls: ModelClass, kw: map<FieldName, Value>, f: FieldName)
    requires Construct(cls, kw).Success? && cls.Declaration(f).Some? && f !in kw
    ensures cls.Declaration(f).value.default.Some?
    ensures Construct(cls, kw).value.Has(f, cls.Declaration(f).value.default.value)
  {
    assert Admissible(cls.Declaration(f).value, kw, f);
  }

  /** Only the four references lack a default in a job template. */
  lemma JobTemplateOthersDefaulted(f: FieldName)
    requires JobTemplateDeclaration(f).Some? && f !in {Name, Inventory, Project, Playbook}
    ensures !JobTemplateDeclaration(f).value.Required()
  {
  }

  /** Supplying only the required fields of a job template succeeds. */
  lemma JobTemplateRequiredSuffice(name: string, inventory: string, project: string, playbook: string)
    ensures Construct(JobTemplateModel, JobTemplateRequiredArgs(name, inventory, project, playbook)).Success?
  {
    JobTemplateRequiredAdmissible(name, inventory, project, playbook);
  }

  lemma JobTemplateRequiredAdmissible(name: string, inventory: string, project: string, playbook: string)
    ensures AllAdmissible(JobTemplateModel, JobTemplateRequiredArgs(name, inventory, project, playbook))
  {
    var kw := JobTemplateRequiredArgs(name, inventory, project, playbook);
    forall f | JobTemplateDeclaration(f).Some?
      ensures Admissible(JobTemplateDeclaration(f).value, kw, f)
    {
      if f !in {Name, Inventory, Project, Playbook} {
        JobTemplateOthersDefaulted(f);
      }
    }
  }

  /** When only the required fields are supplied, every other field holds
      its declared default (`job_type` "run", strings "", booleans false,
      counters 0 except `job_slice_count` 1, optional fields None, no extra
      vars, no tags). */
  lemma JobTemplateDefaults(name: string, inventory: string, project: string, playbook: string, f: FieldName)
    requires JobTemplateDeclaration(f).Some? && f !in JobTemplateReferences
    ensures var r := Construct(JobTemplateModel, JobTemplateRequiredArgs(name, inventory, project, playbook));
      && r.Success?
      && JobTemplateDeclaration(f).value.default.Some?
      && r.value.Has(f, JobTemplateDeclaration(f).value.default.value)
  {
    JobTemplateRequiredSuffice(name, inventory, project, playbook);
    Defaulted(JobTemplateModel, JobTemplateRequiredArgs(name, inventory, project, playbook), f);
  }

  /** With the required fields supplied, an integer for `verbosity`, `forks`,
      `timeout` or `job_slice_count` is accepted exactly when it is within the
      declared bounds (so `verbosity=6`, `forks=-1` and `job_slice_count=0` fail). */
  lemma JobTemplateIntLimits(name: string, inventory: string, project: string, playbook: string,
                             field: FieldName, v: int)
    requires field in {Verbosity, Forks, Timeout, JobSliceCount}
    ensures var kw := JobTemplateRequiredArgs(name, inventory, project, playbook)[field := Int(v)];
      Construct(JobTemplateModel, kw).Success? <==>
        if field == Verbosity then 0 <= v <= 5
        else if field == JobSliceCount then v >= 1
        else v >= 0
  {
    JobTemplateIntAdmissible(name, inventory, project, playbook, field, v);
  }

  lemma JobTemplateIntAdmissible(name: string, inventory: string, project: string, playbook: string,
                                 field: FieldName, v: int)
    requires field in {Verbosity, Forks, Timeout, JobSliceCount}
    ensures var kw := JobTemplateRequiredArgs(name, inventory, project, playbook)[field := Int(v)];
      AllAdmissible(JobTemplateModel, kw) <==>
        if field == Verbosity then 0 <= v <= 5
        else if field == JobSliceCount then v >= 1
        else v >= 0
  {
    var kw := JobTemplateRequiredArgs(name, inventory, project, playbook)[field := Int(v)];
    forall f | JobTemplateDeclaration(f).Some? && f != field
      ensures Admissible(JobTemplateDeclaration(f).value, kw, f)
    {
      ReferencesAdmissible(kw, field, f);
    }
    JobTemplateIntDeclared(field, Int(v));
    DecidedBy(JobTemplateModel, kw, field);
  }

  /** A job template field other than `g` is admissible when the keywords are
      the four references, as strings, and possibly `g`. */
  lemma ReferencesAdmissible(kw: map<FieldName, Value>, g: FieldName, f: FieldName)
    requires forall h :: h in JobTemplateReferences ==> h in kw && kw[h].Str?
    requires forall h :: h in kw ==> h in JobTemplateReferences || h == g
    requires JobTemplateDeclaration(f).Some? && f != g
    ensures Admissible(JobTemplateDeclaration(f).value, kw, f)
  {
    if f !in JobTemplateReferences {
      JobTemplateOthersDefaulted(f);
    }
  }

  /** Every successful workflow job template construction was given a
      string name. */
  lemma WorkflowJobTemplateRequired(kw: map<FieldName, Value>)
    requires Construct(WorkflowJobTemplateModel, kw).Success?
    ensures Name in kw && kw[Name].Str?
  {
    WorkflowJobTemplateNameSupplied(kw);
  }

  lemma WorkflowJobTemplateNameSupplied(kw: map<FieldName, Value>)
    requires AllAdmissible(WorkflowJobTemplateModel, kw)
    ensures Name in kw && kw[Name].Str?
  {
    assert Admissible(WorkflowJobTemplateModel.Declaration(Name).value, kw, Name);
  }

  /** Only `name` lacks a default in a workflow job template. */
  lemma WorkflowJobTemplateOthersDefaulted(f: FieldName)
    requires WorkflowJobTemplateDeclaration(f).Some? && f != Name
    ensures !WorkflowJobTemplateDeclaration(f).value.Required()
  {
  }

  /** Supplying only a name succeeds; every other field then holds its
      declared default, so `inventory`, `organization` and `webhook_credential`
      are None. */
  lemma WorkflowJobTemplateDefaults(name: string, f: FieldName)
    requires WorkflowJobTemplateDeclaration(f).Some? && f != Name
    ensures var r := Construct(WorkflowJobTemplateModel, WorkflowJobTemplateRequiredArgs(name));
      && r.Success?
      && WorkflowJobTemplateDeclaration(f).value.default.Some?
      && r.value.Has(f, WorkflowJobTemplateDeclaration(f).value.default.value)
  {
    var kw := WorkflowJobTemplateRequiredArgs(name);
    assert WorkflowJobTemplateModel.Declaration(f).Some? && f !in kw;
    WorkflowJobTemplateNameSuffices(name);
    Defaulted(WorkflowJobTemplateModel, kw, f);
  }

  /** Builder for the lemmas below: the keyword arguments that supply only the
      name of a workflow job template. */
  function WorkflowJobTemplateRequiredArgs(name: string): (kw: map<FieldName, Value>)
    ensures kw.Keys == {Name} && kw[Name] == Str(name)
  {
    map[Name := Str(name)]
  }

  /** Supplying only a name to a workflow job template succeeds. */
  lemma WorkflowJobTemplateNameSuffices(name: string)
    ensures Construct(WorkflowJobTemplateModel, WorkflowJobTemplateRequiredArgs(name)).Success?
  {
    var kw := WorkflowJobTemplateRequiredArgs(name);
    forall f | WorkflowJobTemplateDeclaration(f).Some?
      ensures Admissible(WorkflowJobTemplateDeclaration(f).value, kw, f)
    {
      if f != Name {
        WorkflowJobTemplateOthersDefaulted(f);
      }
    }
  }

  /** No workflow field carries a numeric bound: a value is accepted exactly
      when it has the declared type. */
  lemma WorkflowJobTemplateUnbounded(f: FieldName, v: Value)
    requires WorkflowJobTemplateDeclaration(f).Some?
    ensures WorkflowJobTemplateDeclaration(f).value.Accepts(v) <==> WorkflowJobTemplateDeclaration(f).value.kind.Admits(v)
  {
  }

  /** In either model, `webhook_service` is None or a member of `WebhookServiceEnum`. */
  lemma WebhookServiceDomain(m: Model)
    requires m.Valid()
    ensures m.fields[WebhookService] == Null
         || (m.fields[WebhookService].Str? && m.fields[WebhookService].s in WebhookServices)
  {
    var v := m.fields[WebhookService];
    assert m.cls.Declaration(WebhookService) == Some(NoWebhookService());
    assert NoWebhookService().Accepts(v);
    assert v.Null? || EnumKind(WebhookServices).Admits(v);
  }

  // ---------------------------------------------------------------------------
  // Properties of the dump

  /** The dump of a valid model is flat: the only dict (`extra_vars`) and the only
      set (`job_tags`) have been turned into strings, so every value is a JSON scalar. */
  lemma DumpIsFlat(m: Model, dumps: Dict -> string, tagOrder: seq<string>)
    requires m.Valid() && Enumerates(tagOrder, m.Tags())
    ensures forall f :: f in ModelDump(m, dumps, tagOrder) ==> ModelDump(m, dumps, tagOrder)[f].Scalar()
  {
    var d := ModelDump(m, dumps, tagOrder);
    forall f | f in d
      ensures d[f].Scalar()
    {
      if f != ExtraVars && f != JobTags {
        var spec := m.cls.Declaration(f).value;
        assert spec.Accepts(m.fields[f]);
        OnlyContainersNest(m.cls, f);
        FlatAdmitsScalar(spec.kind, m.fields[f]);
      }
    }
  }

  /** `extra_vars` and `job_tags` are the only container fields. */
  lemma OnlyContainersNest(cls: ModelClass, f: FieldName)
    requires cls.Declaration(f).Some? && f != ExtraVars && f != JobTags
    ensures cls.Declaration(f).value.kind.Flat()
  {
    match cls
    case JobTemplateModel => JobTemplateFlat(f);
    case WorkflowJobTemplateModel => WorkflowJobTemplateFlat(f);
  }

  lemma JobTemplateFlat(f: FieldName)
    requires JobTemplateDeclaration(f).Some? && f != ExtraVars && f != JobTags
    ensures JobTemplateDeclaration(f).value.kind.Flat()
  {
  }

  lemma WorkflowJobTemplateFlat(f: FieldName)
    requires WorkflowJobTemplateDeclaration(f).Some? && f != ExtraVars && f != JobTags
    ensures WorkflowJobTemplateDeclaration(f).value.kind.Flat()
  {
  }

  lemma {:induction false} SplitWithoutSeparator(p: string, sep: char)
    requires sep !in p
    ensures Split(p, sep) == [p]
  {
    if |p| > 0 {
      SplitWithoutSeparator(p[1..], sep);
      assert [p[0]] + p[1..] == p;
    }
  }

  lemma {:induction false} SplitAfterPart(p: string, t: string, sep: char)
    requires sep !in p
    ensures Split(p + [sep] + t, sep) == [p] + Split(t, sep)
  {
    if |p| == 0 {
      assert p + [sep] + t == [sep] + t;
      assert ([sep] + t)[1..] == t;
    } else {
      var s := p + [sep] + t;
      assert s[0] == p[0] && s[1..] == p[1..] + [sep] + t;
      SplitAfterPart(p[1..], t, sep);
      assert [p[0]] + p[1..] == p;
    }
  }

  /** Splitting the joined text at the separator gives back the parts, provided
      there is at least one part and no part contains the separator. */
  lemma {:induction false} SplitJoin(parts: seq<string>, sep: char)
    requires |parts| >= 1
    requires forall i :: 0 <= i < |parts| ==> sep !in parts[i]
    ensures Split(Join(parts, sep), sep) == parts
  {
    if |parts| == 1 {
      SplitWithoutSeparator(parts[0], sep);
    } else {
      SplitJoin(parts[1..], sep);
      SplitAfterPart(parts[0], Join(parts[1..], sep), sep);
      assert [parts[0]] + parts[1..] == parts;
    }
  }

  /** An enumeration has one entry per member of the set. */
  lemma {:induction false} EnumerationSize(order: seq<string>, s: set<string>)
    requires Enumerates(order, s)
    ensures |order| == |s|
  {
    if |order| == 0 {
      assert forall t :: t in s ==> t in order;
      assert s == {};
    } else {
      var rest := order[1..];
      var s' := s - {order[0]};
      forall t | t in s' ensures t in rest {
        var i :| 0 <= i < |order| && order[i] == t;
        assert i != 0;
        assert rest[i - 1] == t;
      }
      forall i, j | 0 <= i < j < |rest| ensures rest[i] != rest[j] {
        assert rest[i] == order[i + 1] && rest[j] == order[j + 1];
      }
      forall i | 0 <= i < |rest| ensures rest[i] in s' {
        assert rest[i] == order[i + 1];
        assert order[0] != order[i + 1];
      }
      EnumerationSize(rest, s');
    }
  }

  /** `t` occurs in `s` as one whole `sep`-delimited field: a segment that
      starts at the beginning of `s` or after a `sep`, and ends at the end of
      `s` or before a `sep`. */
  predicate IsField(t: string, s: string, sep: char) {
    exists i, j :: 0 <= i <= j <= |s| && s[i..j] == t
      && (i == 0 || s[i - 1] == sep) && (j == |s| || s[j] == sep)
  }

  /** Every part of a join occurs in the joined text as a whole field,
      whatever the parts contain. */
  lemma {:induction false} JoinFields(parts: seq<string>, sep: char)
    ensures forall k :: 0 <= k < |parts| ==> IsField(parts[k], Join(parts, sep), sep)
  {
    if |parts| == 1 {
      var s := Join(parts, sep);
      assert s[0..|s|] == parts[0];
    } else if |parts| > 1 {
      var head, rest := parts[0], Join(parts[1..], sep);
      var s := Join(parts, sep);
      assert s == head + [sep] + rest;
      JoinFields(parts[1..], sep);
      forall k | 0 <= k < |parts| ensures IsField(parts[k], s, sep) {
        if k == 0 {
          assert s[0..|head|] == head;
        } else {
          assert IsField(parts[1..][k - 1], rest, sep);
          var i, j :| 0 <= i <= j <= |rest| && rest[i..j] == parts[k]
            && (i == 0 || rest[i - 1] == sep) && (j == |rest| || rest[j] == sep);
          ShiftField(head, rest, sep, i, j);
        }
      }
    }
  }

  /** Proof step: a field of `rest` stays a field once `head` and a separator
      are put in front. */
  lemma ShiftField(head: string, rest: string, sep: char, i: int, j: int)
    requires 0 <= i <= j <= |rest|
    requires i == 0 || rest[i - 1] == sep
    requires j == |rest| || rest[j] == sep
    ensures IsField(rest[i..j], head + [sep] + rest, sep)
  {
    var s := head + [sep] + rest;
    var d := |head| + 1;
    assert s[i + d..j + d] == rest[i..j];
    assert s[i + d - 1] == (if i == 0 then sep else rest[i - 1]);
    assert j + d == |s| || s[j + d] == rest[j];
  }

  /** The dumped `job_tags` names every tag: each tag of the set occurs in the
      joined text as a whole comma-delimited field, and an empty set dumps as
      "". When no tag contains a comma the dump also reads back exactly: split
      at "," it gives the set, one part per tag, whatever the iteration order. */
  lemma DumpedTags(m: Model, dumps: Dict -> string, tagOrder: seq<string>)
    requires m.Valid() && Enumerates(tagOrder, m.Tags())
    ensures m.Tags() == {} ==> ModelDump(m, dumps, tagOrder)[JobTags] == Str("")
    ensures forall t :: t in m.Tags() ==> IsField(t, ModelDump(m, dumps, tagOrder)[JobTags].s, ',')
    ensures m.Tags() != {} && (forall t :: t in m.Tags() ==> ',' !in t) ==>
      var parts := Split(ModelDump(m, dumps, tagOrder)[JobTags].s, ',');
      (set p | p in parts) == m.Tags() && |parts| == |m.Tags()|
  {
    var tags := m.Tags();
    EnumerationSize(tagOrder, tags);
    JoinFields(tagOrder, ',');
    forall t | t in tags ensures IsField(t, Join(tagOrder, ','), ',') {
      var k :| 0 <= k < |tagOrder| && tagOrder[k] == t;
    }
    if tags != {} && (forall t :: t in tags ==> ',' !in t) {
      SplitJoin(tagOrder, ',');
    }
  }
}
