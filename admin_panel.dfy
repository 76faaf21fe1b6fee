/**
 * The administration page (frontend/src/pages/AdminPanel.jsx): the
 * add-furniture form with its upload setters, number inputs, submit guard
 * and reset, and which lists are fetched for the active tab.
 */
module AdminPanel {
  import opened Wrappers
  import Js
  import FurnitureSchema

  datatype FormDimensions = FormDimensions(width: int, height: int, depth: int)

  /** `formData`; the two uploads hold data URLs, "" when nothing was uploaded. */
  datatype FurnitureForm = FurnitureForm(
    name: string,
    category: string,
    imageURL: string,
    modelURL: string,
    dimensions: FormDimensions)

  /** The form's value on mount and after a successful add. */
  const InitialForm := FurnitureForm("", "", "", "", FormDimensions(50, 50, 0))

  datatype Tab = FurnitureTab | UsersTab | ProjectsTab

  /** Which lists the tab effect requests. */
  datatype FetchPlan = FetchPlan(furniture: bool, users: bool, projects: bool)

  /** The effect on `activeTab`: the catalog always, users and projects only on their own tab. */
  function FetchesFor(tab: Tab): (plan: FetchPlan)
    ensures plan.furniture
    ensures plan.users <==> tab == UsersTab
    ensures plan.projects <==> tab == ProjectsTab
  {
    FetchPlan(true, tab == UsersTab, tab == ProjectsTab)
  }

  /**
   * The submit guard: at least one of the 2D image and the 3D model was
   * uploaded; the alert is shown exactly when both are still empty.
   */
  predicate CanAdd(f: FurnitureForm)
    ensures !CanAdd(f) <==> !Truthy(Some(f.imageURL)) && !Truthy(Some(f.modelURL))
  {
    f.imageURL != "" || f.modelURL != ""
  }

  /** `parseInt(value) || 0`: the parsed integer, and 0 for NaN (and for 0 itself). */
  function NumberField(raw: string): (n: int)
    ensures Js.ParseInt(raw).None? ==> n == 0
    ensures Js.ParseInt(raw).Some? ==> n == Js.ParseInt(raw).value
  {
    var p := Js.ParseInt(raw);
    if NumTruthy(p) then p.value else 0
  }

  /** A number input showing an integer stores that integer. */
  lemma NumberFieldReadsBack(i: int)
    ensures NumberField(Js.IntString(i)) == i
  {
    Js.ParseIntRoundTrip(i);
  }

  class Panel<U, Pj> {
    var furniture: seq<FurnitureSchema.CatalogEntry>
    var formData: FurnitureForm
    var activeTab: Tab
    var users: seq<U>
    var projects: seq<Pj>

    constructor()
      ensures furniture == [] && users == [] && projects == []
      ensures formData == InitialForm && activeTab == FurnitureTab
    {
      furniture, users, projects := [], [], [];
      formData := InitialForm;
      activeTab := FurnitureTab;
    }

    /**
     * A tab button. The effect re-runs only when the active tab actually
     * changes; it returns the requests the effect issues.
     */
    method SelectTab(tab: Tab) returns (plan: Option<FetchPlan>)
      modifies this`activeTab
      ensures activeTab == tab
      ensures plan == (if tab == old(activeTab) then None else Some(FetchesFor(tab)))
    {
      plan := if tab == activeTab then None else Some(FetchesFor(tab));
      activeTab := tab;
    }

    /** `fetchFurniture`: a successful response replaces the list; a failure is only logged. */
    method ReceiveFurniture(res: Fetch<seq<FurnitureSchema.CatalogEntry>>)
      modifies this`furniture
      ensures furniture == (if res.Loaded? then res.body else old(furniture))
    {
      if res.Loaded? {
        furniture := res.body;
      }
    }

    method ReceiveUsers(res: Fetch<seq<U>>)
      modifies this`users
      ensures users == (if res.Loaded? then res.body else old(users))
    {
      if res.Loaded? {
        users := res.body;
      }
    }

    method ReceiveProjects(res: Fetch<seq<Pj>>)
      modifies this`projects
      ensures projects == (if res.Loaded? then res.body else old(projects))
    {
      if res.Loaded? {
        projects := res.body;
      }
    }

    method SetName(value: string)
      modifies this`formData
      ensures formData == old(formData).(name := value)
    {
      formData := formData.(name := value);
    }

    method SetCategory(value: string)
      modifies this`formData
      ensures formData == old(formData).(category := value)
    {
      formData := formData.(category := value);
    }

    /** The width input: the parsed value replaces only the width. */
    method SetWidth(raw: string)
      modifies this`formData
      ensures formData == old(formData).(dimensions := old(formData).dimensions.(width := NumberField(raw)))
    {
      formData := formData.(dimensions := formData.dimensions.(width := NumberField(raw)));
    }

    /** The height input: the parsed value replaces only the height. */
    method SetHeight(raw: string)
      modifies this`formData
      ensures formData == old(formData).(dimensions := old(formData).dimensions.(height := NumberField(raw)))
    {
      formData := formData.(dimensions := formData.dimensions.(height := NumberField(raw)));
    }

    /** `handleImageUpload`: the file's data URL becomes `imageURL` and nothing else changes. */
    method UploadImage(file: Option<string>)
      modifies this`formData
      ensures formData == (if file.Some? then old(formData).(imageURL := file.value) else old(formData))
    {
      if file.Some? {
        formData := formData.(imageURL := file.value);
      }
    }

    /** `handleModelUpload`: the file's data URL becomes `modelURL` and nothing else changes. */
    method UploadModel(file: Option<string>)
      modifies this`formData
      ensures formData == (if file.Some? then old(formData).(modelURL := file.value) else old(formData))
    {
      if file.Some? {
        formData := formData.(modelURL := file.value);
      }
    }

    /**
     * `handleAddFurniture`: with neither upload nothing is sent; otherwise
     * the form is posted, and when the post succeeds the form is reset and
     * the catalog is fetched again.
     */
    method AddFurniture(postSucceeds: bool) returns (sent: Option<FurnitureForm>, refetch: bool)
      modifies this`formData
      ensures sent.None? <==> !CanAdd(old(formData))
      ensures sent.Some? ==> sent.value == old(formData)
      ensures refetch <==> sent.Some? && postSucceeds
      ensures formData == (if refetch then InitialForm else old(formData))
    {
      if !CanAdd(formData) {
        return None, false;
      }
      sent := Some(formData);
      refetch := postSucceeds;
      if postSucceeds {
        formData := InitialForm;
      }
    }
  }
}
