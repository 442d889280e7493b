/** The store of the application: one record holding the theme flag, the
    current plan, the number of plans generated since the count was last reset and the
    form's five text fields, changed only through six actions. */
module AppStore {
  import opened Optional

  datatype FormData = FormData(
    productName: string,
    productDescription: string,
    targetAudience: string,
    budget: string,
    goals: string)

  /** A partial form record: `None` marks a field the update leaves out. */
  datatype FormPatch = FormPatch(
    productName: Option<string>,
    productDescription: Option<string>,
    targetAudience: Option<string>,
    budget: Option<string>,
    goals: Option<string>)

  const EmptyForm := FormData("", "", "", "", "")
  const NoChanges := FormPatch(None, None, None, None, None)

  /** The shallow merge `{ ...form, ...patch }`. */
  function Merge(form: FormData, patch: FormPatch): FormData {
    FormData(
      patch.productName.GetOr(form.productName),
      patch.productDescription.GetOr(form.productDescription),
      patch.targetAudience.GetOr(form.targetAudience),
      patch.budget.GetOr(form.budget),
      patch.goals.GetOr(form.goals))
  }

  /** `{ ...p, ...q }` on two partial records: a field of `q` wins. */
  function Combine(p: FormPatch, q: FormPatch): FormPatch {
    FormPatch(
      if q.productName.Some? then q.productName else p.productName,
      if q.productDescription.Some? then q.productDescription else p.productDescription,
      if q.targetAudience.Some? then q.targetAudience else p.targetAudience,
      if q.budget.Some? then q.budget else p.budget,
      if q.goals.Some? then q.goals else p.goals)
  }

  datatype AppState = AppState(
    isDarkMode: bool,
    marketingPlan: Option<string>,
    usageCount: nat,
    formData: FormData)

  /** The store's state before any action. */
  const Initial := AppState(false, None, 0, EmptyForm)

  /** The six actions of the store. */
  datatype Action =
    | Toggle            // toggleDarkMode
    | SetPlan(plan: string)  // setMarketingPlan
    | ClearPlan         // clearMarketingPlan
    | Increment         // incrementUsage
    | Reset             // resetUsage
    | UpdateForm(patch: FormPatch)  // updateFormData

  /** The top-level fields of the state. */
  datatype Field = DarkModeField | PlanField | UsageField | FormField

  /** The one top-level field an action writes. */
  function Target(a: Action): Field {
    match a
    case Toggle => DarkModeField
    case SetPlan(_) => PlanField
    case ClearPlan => PlanField
    case Increment => UsageField
    case Reset => UsageField
    case UpdateForm(_) => FormField
  }

  /** The state after one action. */
  function Apply(s: AppState, a: Action): AppState {
    match a
    case Toggle => s.(isDarkMode := !s.isDarkMode)
    case SetPlan(p) => s.(marketingPlan := Some(p))
    case ClearPlan => s.(marketingPlan := None)
    case Increment => s.(usageCount := s.usageCount + 1)
    case Reset => s.(usageCount := 0)
    case UpdateForm(d) => s.(formData := Merge(s.formData, d))
  }

  /** Every action leaves every top-level field other than its own as it was. */
  lemma OnlyTargetChanges(s: AppState, a: Action)
    ensures Target(a) != DarkModeField ==> Apply(s, a).isDarkMode == s.isDarkMode
    ensures Target(a) != PlanField ==> Apply(s, a).marketingPlan == s.marketingPlan
    ensures Target(a) != UsageField ==> Apply(s, a).usageCount == s.usageCount
    ensures Target(a) != FormField ==> Apply(s, a).formData == s.formData
  {
  }

  /** Toggling the theme negates the flag, and toggling twice restores the state. */
  lemma ToggleTwice(s: AppState)
    ensures Apply(s, Toggle).isDarkMode == !s.isDarkMode
    ensures Apply(Apply(s, Toggle), Toggle) == s
  {
  }

  /** Setting the plan stores exactly the given text; clearing stores null. */
  lemma PlanActions(s: AppState, p: string)
    ensures Apply(s, SetPlan(p)).marketingPlan == Some(p)
    ensures Apply(s, ClearPlan).marketingPlan == None
    ensures Apply(Apply(s, SetPlan(p)), ClearPlan) == Apply(s, ClearPlan)
  {
  }

  /** Incrementing adds exactly one; resetting yields zero from any count. */
  lemma UsageActions(s: AppState)
    ensures Apply(s, Increment).usageCount == s.usageCount + 1
    ensures Apply(s, Reset).usageCount == 0
    ensures Apply(Apply(s, Increment), Reset) == Apply(s, Reset)
  {
  }

  /** A field the patch names takes the patch's value; any other field keeps its value. */
  lemma MergeFields(form: FormData, d: FormPatch)
    ensures Merge(form, d).productName == if d.productName.Some? then d.productName.value else form.productName
    ensures Merge(form, d).productDescription == if d.productDescription.Some? then d.productDescription.value else form.productDescription
    ensures Merge(form, d).targetAudience == if d.targetAudience.Some? then d.targetAudience.value else form.targetAudience
    ensures Merge(form, d).budget == if d.budget.Some? then d.budget.value else form.budget
    ensures Merge(form, d).goals == if d.goals.Some? then d.goals.value else form.goals
  {
  }

  /** Updating the form twice with the same patch is the same as once; an empty
      patch changes nothing; two updates in a row merge like one combined patch. */
  lemma UpdateFormLaws(s: AppState, d: FormPatch, e: FormPatch)
    ensures Apply(Apply(s, UpdateForm(d)), UpdateForm(d)) == Apply(s, UpdateForm(d))
    ensures Apply(s, UpdateForm(NoChanges)) == s
    ensures Apply(Apply(s, UpdateForm(d)), UpdateForm(e)) == Apply(s, UpdateForm(Combine(d, e)))
  {
  }

  /** The zustand store: the fields of `AppState` held in one mutable object. */
  class Store {
    var isDarkMode: bool
    var marketingPlan: Option<string>
    var usageCount: nat
    var formData: FormData

    function State(): AppState
      reads this
    {
      AppState(isDarkMode, marketingPlan, usageCount, formData)
    }

    constructor ()
      ensures State() == Initial
      ensures !isDarkMode && marketingPlan == None && usageCount == 0 && formData == EmptyForm
    {
      isDarkMode := false;
      marketingPlan := None;
      usageCount := 0;
      formData := EmptyForm;
    }

    method ToggleDarkMode()
      modifies this
      ensures State() == Apply(old(State()), Toggle)
      ensures isDarkMode == !old(isDarkMode)
    {
      isDarkMode := !isDarkMode;
    }

    method SetMarketingPlan(plan: string)
      modifies this
      ensures State() == Apply(old(State()), SetPlan(plan))
      ensures marketingPlan == Some(plan)
    {
      marketingPlan := Some(plan);
    }

    method ClearMarketingPlan()
      modifies this
      ensures State() == Apply(old(State()), ClearPlan)
      ensures marketingPlan == None
    {
      marketingPlan := None;
    }

    method IncrementUsage()
      modifies this
      ensures State() == Apply(old(State()), Increment)
      ensures usageCount == old(usageCount) + 1
    {
      usageCount := usageCount + 1;
    }

    method ResetUsage()
      modifies this
      ensures State() == Apply(old(State()), Reset)
      ensures usageCount == 0
    {
      usageCount := 0;
    }

    method UpdateFormData(data: FormPatch)
      modifies this
      ensures State() == Apply(old(State()), UpdateForm(data))
      ensures formData == Merge(old(formData), data)
    {
      formData := Merge(formData, data);
    }
  }
}
