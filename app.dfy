/** The application shell: whether the user is logged in, which tab is open,
    whether that tab shows its entry form or its list, and which maintenance
    record is being edited. */
module App {
  import opened Common
  import opened Records
  import Sorting

  /** The six tabs, in the order of the navigation bar. */
  datatype Tab = Delivery | Maintenance | Fuel | Advance | DriverPayment | VendorPayment

  /** The label of a tab, shown on its button and as the page title. */
  function Label(t: Tab): string
  {
    match t
    case Delivery => "Delivery"
    case Maintenance => "Maintenance"
    case Fuel => "Fuel"
    case Advance => "Advance"
    case DriverPayment => "Driver Payment"
    case VendorPayment => "Vendor Payment"
  }

  /** No two tabs share a label, so the title names the open tab. */
  lemma LabelsDistinct(a: Tab, b: Tab)
    ensures Label(a) == Label(b) ==> a == b
  {
  }

  /** What fills the page under the header. */
  datatype Content =
    | DeliveryFormView
    | DataDisplayView
    | MaintenanceFormView(initialData: Option<MaintenanceRecord>, isEdit: bool)
    | MaintenanceTableView
    | FuelFormView
    | FuelTableView
    | AdvanceFormView
    | AdvanceTableView
    | DriverPaymentTableView
    | VendorPaymentTableView

  /** The toggle in the header: "Add New" in list mode, "Back to List" in
      form mode. */
  datatype HeaderButton = AddNewButton | BackToListButton

  datatype Screen = LoginScreen | MainScreen(title: string, button: HeaderButton, content: Content)

  /** The tab a piece of content belongs to. */
  function TabOf(c: Content): Tab
  {
    match c
    case DeliveryFormView => Delivery
    case DataDisplayView => Delivery
    case MaintenanceFormView(_, _) => Maintenance
    case MaintenanceTableView => Maintenance
    case FuelFormView => Fuel
    case FuelTableView => Fuel
    case AdvanceFormView => Advance
    case AdvanceTableView => Advance
    case DriverPaymentTableView => DriverPayment
    case VendorPaymentTableView => VendorPayment
  }

  predicate IsForm(c: Content)
  {
    c.DeliveryFormView? || c.MaintenanceFormView? || c.FuelFormView? || c.AdvanceFormView?
  }

  /** The tabs that have an entry form. */
  predicate HasForm(t: Tab)
  {
    t != DriverPayment && t != VendorPayment
  }

  /** What `App` renders for a given state. */
  function SelectView(isAuthenticated: bool, activeTab: Tab, isAddingNew: bool,
                      selected: Option<MaintenanceRecord>): Screen
  {
    if !isAuthenticated then LoginScreen
    else
      var content :=
        match activeTab
        case Delivery => if isAddingNew then DeliveryFormView else DataDisplayView
        case Maintenance =>
          if isAddingNew then MaintenanceFormView(selected, selected.Some?) else MaintenanceTableView
        case Fuel => if isAddingNew then FuelFormView else FuelTableView
        case Advance => if isAddingNew then AdvanceFormView else AdvanceTableView
        case DriverPayment => DriverPaymentTableView
        case VendorPayment => VendorPaymentTableView;
      MainScreen(Label(activeTab), if isAddingNew then BackToListButton else AddNewButton, content)
  }

  /** The login page stands in for everything while logged out. Once logged
      in, the content belongs to the open tab, which the title names; a form
      is shown exactly in form mode on a tab that has one, so the two payment
      tabs show their table even in form mode; and the maintenance form is in
      edit mode exactly when a record is selected, which it receives. */
  lemma ViewProperties(isAuthenticated: bool, activeTab: Tab, isAddingNew: bool,
                       selected: Option<MaintenanceRecord>)
    ensures var v := SelectView(isAuthenticated, activeTab, isAddingNew, selected);
            (v.LoginScreen? <==> !isAuthenticated)
            && (v.MainScreen? ==>
                  TabOf(v.content) == activeTab && v.title == Label(activeTab)
                  && (IsForm(v.content) <==> isAddingNew && HasForm(activeTab))
                  && (v.button == BackToListButton <==> isAddingNew)
                  && (v.content.MaintenanceFormView? ==>
                        v.content.initialData == selected && (v.content.isEdit <==> selected.Some?)))
  {
  }

  /** The initial sort: by delivery date, newest first. */
  const InitialSort: Sorting.SortConfig<string> := Sorting.SortConfig("deliveryDate", Sorting.Desc)

  class App {
    var isAuthenticated: bool
    var activeTab: Tab
    var isAddingNew: bool
    var selectedMaintenance: Option<MaintenanceRecord>
    var startDate: string
    var endDate: string
    var sortConfig: Sorting.SortConfig<string>

    constructor()
      ensures !isAuthenticated && activeTab == Delivery && !isAddingNew && selectedMaintenance == None
      ensures startDate == "" && endDate == "" && sortConfig == InitialSort
    {
      isAuthenticated := false;
      activeTab := Delivery;
      isAddingNew := false;
      selectedMaintenance := None;
      startDate := "";
      endDate := "";
      sortConfig := InitialSort;
    }

    function View(): Screen
      reads this
    {
      SelectView(isAuthenticated, activeTab, isAddingNew, selectedMaintenance)
    }

    /** The state apart from the login flag and the navigation. */
    function Settings(): (string, string, Sorting.SortConfig<string>)
      reads this
    {
      (startDate, endDate, sortConfig)
    }

    method HandleLogin()
      modifies this
      ensures isAuthenticated
      ensures activeTab == old(activeTab) && isAddingNew == old(isAddingNew)
      ensures selectedMaintenance == old(selectedMaintenance) && Settings() == old(Settings())
    {
      isAuthenticated := true;
    }

    method HandleLogout()
      modifies this
      ensures !isAuthenticated && View() == LoginScreen
      ensures activeTab == old(activeTab) && isAddingNew == old(isAddingNew)
      ensures selectedMaintenance == old(selectedMaintenance) && Settings() == old(Settings())
    {
      isAuthenticated := false;
    }

    /** Selecting a tab returns it to list mode; a maintenance selection
        survives the switch. */
    method SelectTab(tab: Tab)
      modifies this
      ensures activeTab == tab && !isAddingNew
      ensures isAuthenticated == old(isAuthenticated) && selectedMaintenance == old(selectedMaintenance)
      ensures Settings() == old(Settings())
      ensures isAuthenticated ==> !IsForm(View().content)
    {
      activeTab := tab;
      isAddingNew := false;
    }

    method AddNew()
      modifies this
      ensures isAddingNew
      ensures isAuthenticated == old(isAuthenticated) && activeTab == old(activeTab)
      ensures selectedMaintenance == old(selectedMaintenance) && Settings() == old(Settings())
    {
      isAddingNew := true;
    }

    method BackToList()
      modifies this
      ensures !isAddingNew && selectedMaintenance == None
      ensures isAuthenticated == old(isAuthenticated) && activeTab == old(activeTab)
      ensures Settings() == old(Settings())
    {
      isAddingNew := false;
      selectedMaintenance := None;
    }

    /** Editing a maintenance record opens the form on it, in edit mode when
        the maintenance tab is the open one. */
    method HandleMaintenanceEdit(record: MaintenanceRecord)
      modifies this
      ensures selectedMaintenance == Some(record) && isAddingNew
      ensures isAuthenticated == old(isAuthenticated) && activeTab == old(activeTab)
      ensures Settings() == old(Settings())
      ensures isAuthenticated && activeTab == Maintenance ==> View().content == MaintenanceFormView(Some(record), true)
    {
      selectedMaintenance := Some(record);
      isAddingNew := true;
    }

    method HandleMaintenanceSubmit()
      modifies this
      ensures !isAddingNew && selectedMaintenance == None
      ensures isAuthenticated == old(isAuthenticated) && activeTab == old(activeTab)
      ensures Settings() == old(Settings())
    {
      isAddingNew := false;
      selectedMaintenance := None;
    }

    /** The table's refresh callback forgets the selection only. */
    method HandleMaintenanceRefresh()
      modifies this
      ensures selectedMaintenance == None
      ensures isAuthenticated == old(isAuthenticated) && activeTab == old(activeTab)
      ensures isAddingNew == old(isAddingNew) && Settings() == old(Settings())
    {
      selectedMaintenance := None;
    }

    /** The submit callbacks of the delivery, fuel and advance forms leave
        form mode and nothing else. */
    method HandleFormSubmit()
      modifies this
      ensures !isAddingNew
      ensures isAuthenticated == old(isAuthenticated) && activeTab == old(activeTab)
      ensures selectedMaintenance == old(selectedMaintenance) && Settings() == old(Settings())
    {
      isAddingNew := false;
    }

    method SetStartDate(date: string)
      modifies this
      ensures startDate == date && endDate == old(endDate) && sortConfig == old(sortConfig)
      ensures isAuthenticated == old(isAuthenticated) && activeTab == old(activeTab)
      ensures isAddingNew == old(isAddingNew) && selectedMaintenance == old(selectedMaintenance)
    {
      startDate := date;
    }

    method SetEndDate(date: string)
      modifies this
      ensures endDate == date && startDate == old(startDate) && sortConfig == old(sortConfig)
      ensures isAuthenticated == old(isAuthenticated) && activeTab == old(activeTab)
      ensures isAddingNew == old(isAddingNew) && selectedMaintenance == old(selectedMaintenance)
    {
      endDate := date;
    }
  }
}
