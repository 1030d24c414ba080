/** The Equipment screen (components/Equipment.js): the equipment and supplier
    lists with their text and dropdown filters, the distinct values offered in
    the dropdowns, paging, the dropdown toggles and the delete flow. */
module EquipmentView {
  import opened Js
  import Lists
  import Paging
  import Session

  datatype Equipment = Equipment(
    id: Value,
    name: string,
    equipmentId: string,
    serialNumber: string,
    operationalStatus: string,
    deviceType: string,
    department: string)

  datatype Supplier = Supplier(id: Value, companyName: string, companyEmail: string)

  /** A case-insensitive `includes`, as the filters write it. */
  predicate Mentions(field: string, filter: string) {
    Includes(Lower(field), Lower(filter))
  }

  /** The text filter matches name, equipment id or serial number. */
  predicate TextMatch(e: Equipment, filter: string) {
    Mentions(e.name, filter) || Mentions(e.equipmentId, filter) || Mentions(e.serialNumber, filter)
  }

  /** A dropdown filter: '' lets everything through, otherwise exact equality. */
  predicate Selected(filter: string, value: string) {
    filter == "" || value == filter
  }

  predicate KeepEquipment(e: Equipment, text: string, status: string, deviceType: string, department: string) {
    TextMatch(e, text) && Selected(status, e.operationalStatus)
    && Selected(deviceType, e.deviceType) && Selected(department, e.department)
  }

  function FilteredEquipment(list: seq<Equipment>, text: string, status: string, deviceType: string,
                             department: string): seq<Equipment>
  {
    Lists.Filter(list, e => KeepEquipment(e, text, status, deviceType, department))
  }

  /** An item is shown iff the text filter is a substring of one of its three
      identifying fields and every non-empty dropdown filter equals its field;
      the shown items keep their order. */
  lemma FilteredEquipmentSpec(list: seq<Equipment>, text: string, status: string, deviceType: string,
                              department: string)
    ensures var r := FilteredEquipment(list, text, status, deviceType, department);
      && Lists.Subsequence(r, list)
      && (forall e :: e in r <==>
            (e in list && TextMatch(e, text)
             && (status != "" ==> e.operationalStatus == status)
             && (deviceType != "" ==> e.deviceType == deviceType)
             && (department != "" ==> e.department == department)))
  {
    Lists.FilterIsSubsequence(list, e => KeepEquipment(e, text, status, deviceType, department));
  }

  /** The empty text is a substring of everything. */
  lemma EmptyFilterMentionsAll(field: string)
    ensures Mentions(field, "")
  {
    assert OccursAt(Lower(field), "", 0);
  }

  /** With no filter set nothing is hidden. */
  lemma NoFilterShowsAll(list: seq<Equipment>)
    ensures FilteredEquipment(list, "", "", "", "") == list
  {
    forall i | 0 <= i < |list|
      ensures KeepEquipment(list[i], "", "", "", "")
    {
      EmptyFilterMentionsAll(list[i].name);
    }
    Lists.FilterAll(list, e => KeepEquipment(e, "", "", "", ""));
  }

  predicate KeepSupplier(s: Supplier, filter: string) {
    Mentions(s.companyName, filter) || Mentions(s.companyEmail, filter)
  }

  function FilteredSuppliers(list: seq<Supplier>, filter: string): seq<Supplier> {
    Lists.Filter(list, s => KeepSupplier(s, filter))
  }

  /** A supplier is shown iff the filter is a case-insensitive substring of its
      company name or e-mail; order is kept. */
  lemma FilteredSuppliersSpec(list: seq<Supplier>, filter: string)
    ensures var r := FilteredSuppliers(list, filter);
      && Lists.Subsequence(r, list)
      && (forall s :: s in r <==> s in list && (Mentions(s.companyName, filter) || Mentions(s.companyEmail, filter)))
  {
    Lists.FilterIsSubsequence(list, s => KeepSupplier(s, filter));
  }

  function Statuses(list: seq<Equipment>): seq<string> {
    seq(|list|, i requires 0 <= i < |list| => list[i].operationalStatus)
  }

  function DeviceTypes(list: seq<Equipment>): seq<string> {
    seq(|list|, i requires 0 <= i < |list| => list[i].deviceType)
  }

  function Departments(list: seq<Equipment>): seq<string> {
    seq(|list|, i requires 0 <= i < |list| => list[i].department)
  }

  /** `[...new Set(equipmentList.map(item => item.operational_status))]`. */
  function UniqueStatuses(list: seq<Equipment>): seq<string> {
    Lists.Distinct(Statuses(list))
  }

  function UniqueTypes(list: seq<Equipment>): seq<string> {
    Lists.Distinct(DeviceTypes(list))
  }

  function UniqueDepartments(list: seq<Equipment>): seq<string> {
    Lists.Distinct(Departments(list))
  }

  /** Each dropdown offers every value that occurs, exactly once, in first-occurrence order. */
  lemma UniqueValuesSpec(list: seq<Equipment>)
    ensures var u := UniqueStatuses(list);
      && (forall i, j :: 0 <= i < j < |u| ==> u[i] != u[j])
      && (forall v :: v in u <==> exists k :: 0 <= k < |list| && list[k].operationalStatus == v)
      && Lists.Subsequence(u, Statuses(list))
    ensures var u := UniqueTypes(list);
      && (forall i, j :: 0 <= i < j < |u| ==> u[i] != u[j])
      && (forall v :: v in u <==> exists k :: 0 <= k < |list| && list[k].deviceType == v)
      && Lists.Subsequence(u, DeviceTypes(list))
    ensures var u := UniqueDepartments(list);
      && (forall i, j :: 0 <= i < j < |u| ==> u[i] != u[j])
      && (forall v :: v in u <==> exists k :: 0 <= k < |list| && list[k].department == v)
      && Lists.Subsequence(u, Departments(list))
  {
    Lists.DistinctProperties(Statuses(list));
    Lists.DistinctProperties(DeviceTypes(list));
    Lists.DistinctProperties(Departments(list));
    forall v ensures v in Statuses(list) <==> exists k :: 0 <= k < |list| && list[k].operationalStatus == v {
      if v in Statuses(list) {
        var k :| 0 <= k < |list| && Statuses(list)[k] == v;
        assert list[k].operationalStatus == v;
      }
      if exists k :: 0 <= k < |list| && list[k].operationalStatus == v {
        var k :| 0 <= k < |list| && list[k].operationalStatus == v;
        assert Statuses(list)[k] == v;
      }
    }
    forall v ensures v in DeviceTypes(list) <==> exists k :: 0 <= k < |list| && list[k].deviceType == v {
      if v in DeviceTypes(list) {
        var k :| 0 <= k < |list| && DeviceTypes(list)[k] == v;
        assert list[k].deviceType == v;
      }
      if exists k :: 0 <= k < |list| && list[k].deviceType == v {
        var k :| 0 <= k < |list| && list[k].deviceType == v;
        assert DeviceTypes(list)[k] == v;
      }
    }
    forall v ensures v in Departments(list) <==> exists k :: 0 <= k < |list| && list[k].department == v {
      if v in Departments(list) {
        var k :| 0 <= k < |list| && Departments(list)[k] == v;
        assert list[k].department == v;
      }
      if exists k :: 0 <= k < |list| && list[k].department == v {
        var k :| 0 <= k < |list| && list[k].department == v;
        assert Departments(list)[k] == v;
      }
    }
  }

  /** The delete confirmation's target. */
  datatype DeleteTarget = DeleteTarget(item: Value, kind: string)

  class EquipmentScreen {
    var equipmentList: seq<Equipment>
    var suppliersList: seq<Supplier>
    var equipmentFilter: string
    var supplierFilter: string
    var statusFilter: string
    var deviceTypeFilter: string
    var departmentFilter: string
    var showStatusDropdown: bool
    var showTypeDropdown: bool
    var showDepartmentDropdown: bool
    var currentEquipmentPage: int
    var currentSupplierPage: int
    var itemsPerPage: nat
    var isDeleteModalOpen: bool
    var itemToDelete: Option<Value>
    var deleteItemType: string
    var supplierToDelete: Option<Value>
    /** The wrapper calls issued, in order. */
    var calls: seq<Session.ApiCall>
    /** How many times the lists were fetched again. */
    var refetches: nat

    constructor (equipment: seq<Equipment>, suppliers: seq<Supplier>)
      ensures equipmentList == equipment && suppliersList == suppliers
      ensures equipmentFilter == "" && supplierFilter == "" && statusFilter == ""
      ensures deviceTypeFilter == "" && departmentFilter == ""
      ensures !showStatusDropdown && !showTypeDropdown && !showDepartmentDropdown
      ensures currentEquipmentPage == 1 && currentSupplierPage == 1 && itemsPerPage == 10
      ensures !isDeleteModalOpen && itemToDelete == None && deleteItemType == "" && supplierToDelete == None
      ensures calls == [] && refetches == 0
    {
      equipmentList, suppliersList := equipment, suppliers;
      equipmentFilter, supplierFilter, statusFilter := "", "", "";
      deviceTypeFilter, departmentFilter := "", "";
      showStatusDropdown, showTypeDropdown, showDepartmentDropdown := false, false, false;
      currentEquipmentPage, currentSupplierPage, itemsPerPage := 1, 1, 10;
      isDeleteModalOpen, itemToDelete, deleteItemType, supplierToDelete := false, None, "", None;
      calls, refetches := [], 0;
    }

    predicate AtMostOneOpen()
      reads this
    {
      (if showStatusDropdown then 1 else 0) + (if showTypeDropdown then 1 else 0)
        + (if showDepartmentDropdown then 1 else 0) <= 1
    }

    /** The equipment rows of the current page. */
    function CurrentEquipment(): seq<Equipment>
      reads this
    {
      Paging.PageSlice(
        FilteredEquipment(equipmentList, equipmentFilter, statusFilter, deviceTypeFilter, departmentFilter),
        currentEquipmentPage, itemsPerPage)
    }

    function TotalEquipmentPages(): nat
      reads this
      requires itemsPerPage > 0
    {
      Paging.TotalPages(
        |FilteredEquipment(equipmentList, equipmentFilter, statusFilter, deviceTypeFilter, departmentFilter)|,
        itemsPerPage)
    }

    function CurrentSuppliers(): seq<Supplier>
      reads this
    {
      Paging.PageSlice(FilteredSuppliers(suppliersList, supplierFilter), currentSupplierPage, itemsPerPage)
    }

    function TotalSupplierPages(): nat
      reads this
      requires itemsPerPage > 0
    {
      Paging.TotalPages(|FilteredSuppliers(suppliersList, supplierFilter)|, itemsPerPage)
    }

    method ToggleStatusDropdown()
      modifies this`showStatusDropdown, this`showTypeDropdown, this`showDepartmentDropdown
      ensures showStatusDropdown == !old(showStatusDropdown)
      ensures !showTypeDropdown && !showDepartmentDropdown
      ensures AtMostOneOpen()
    {
      showStatusDropdown := !showStatusDropdown;
      showTypeDropdown := false;
      showDepartmentDropdown := false;
    }

    method ToggleTypeDropdown()
      modifies this`showStatusDropdown, this`showTypeDropdown, this`showDepartmentDropdown
      ensures showTypeDropdown == !old(showTypeDropdown)
      ensures !showStatusDropdown && !showDepartmentDropdown
      ensures AtMostOneOpen()
    {
      showTypeDropdown := !showTypeDropdown;
      showStatusDropdown := false;
      showDepartmentDropdown := false;
    }

    method ToggleDepartmentDropdown()
      modifies this`showStatusDropdown, this`showTypeDropdown, this`showDepartmentDropdown
      ensures showDepartmentDropdown == !old(showDepartmentDropdown)
      ensures !showStatusDropdown && !showTypeDropdown
      ensures AtMostOneOpen()
    {
      showDepartmentDropdown := !showDepartmentDropdown;
      showStatusDropdown := false;
      showTypeDropdown := false;
    }

    /** Clears the three dropdown filters; the text filter and the page stay. */
    method ResetFilters()
      modifies this`statusFilter, this`deviceTypeFilter, this`departmentFilter
      ensures statusFilter == "" && deviceTypeFilter == "" && departmentFilter == ""
    {
      statusFilter := "";
      deviceTypeFilter := "";
      departmentFilter := "";
    }

    /** A status menu entry ('' for "All Statuses"). */
    method ChooseStatus(status: string)
      modifies this`statusFilter, this`showStatusDropdown, this`currentEquipmentPage
      ensures statusFilter == status && !showStatusDropdown && currentEquipmentPage == 1
      ensures old(AtMostOneOpen()) ==> AtMostOneOpen()
    {
      statusFilter := status;
      showStatusDropdown := false;
      currentEquipmentPage := 1;
    }

    method ChooseDeviceType(deviceType: string)
      modifies this`deviceTypeFilter, this`showTypeDropdown, this`currentEquipmentPage
      ensures deviceTypeFilter == deviceType && !showTypeDropdown && currentEquipmentPage == 1
      ensures old(AtMostOneOpen()) ==> AtMostOneOpen()
    {
      deviceTypeFilter := deviceType;
      showTypeDropdown := false;
      currentEquipmentPage := 1;
    }

    method ChooseDepartment(department: string)
      modifies this`departmentFilter, this`showDepartmentDropdown, this`currentEquipmentPage
      ensures departmentFilter == department && !showDepartmentDropdown && currentEquipmentPage == 1
      ensures old(AtMostOneOpen()) ==> AtMostOneOpen()
    {
      departmentFilter := department;
      showDepartmentDropdown := false;
      currentEquipmentPage := 1;
    }

    method PreviousEquipmentPage()
      modifies this`currentEquipmentPage
      ensures currentEquipmentPage == Paging.PrevTarget(old(currentEquipmentPage))
    {
      currentEquipmentPage := Max(1, currentEquipmentPage - 1);
    }

    /** The next button as written: `Math.min(totalPages, currentPage + 1)`, so
        page 0 when nothing matches (see the page-0 finding). */
    method NextEquipmentPage()
      requires itemsPerPage > 0
      modifies this`currentEquipmentPage
      ensures currentEquipmentPage == Paging.NextTarget(old(currentEquipmentPage), TotalEquipmentPages())
      ensures currentEquipmentPage <= TotalEquipmentPages()
    {
      currentEquipmentPage := Min(TotalEquipmentPages(), currentEquipmentPage + 1);
    }

    /** The page-size selects under both tables (10, 25 or 50): one size for
        both lists; neither current page is reset. */
    method ChangeItemsPerPage(n: nat)
      requires n == 10 || n == 25 || n == 50
      modifies this`itemsPerPage
      ensures itemsPerPage == n
    {
      itemsPerPage := n;
    }

    method OpenDeleteModal(item: Value, kind: string)
      modifies this`itemToDelete, this`deleteItemType, this`isDeleteModalOpen
      ensures itemToDelete == Some(item) && deleteItemType == kind && isDeleteModalOpen
    {
      itemToDelete := Some(item);
      deleteItemType := kind;
      isDeleteModalOpen := true;
    }

    /** handleDeleteItem: nothing without a target; a supplier or equipment target
        issues its delete call; a successful delete closes the modal, clears the
        target and fetches the lists again.  `respond` is the wrapper's result. */
    method HandleDeleteItem(respond: Session.ApiCall -> Session.Mutation)
      modifies this`isDeleteModalOpen, this`itemToDelete, this`supplierToDelete, this`calls, this`refetches
      ensures old(itemToDelete).None? ==>
        (calls == old(calls) && itemToDelete == old(itemToDelete)
         && isDeleteModalOpen == old(isDeleteModalOpen) && refetches == old(refetches))
      ensures old(itemToDelete).Some? && deleteItemType != "supplier" && deleteItemType != "equipment" ==>
        (calls == old(calls) && itemToDelete == old(itemToDelete)
         && isDeleteModalOpen == old(isDeleteModalOpen) && refetches == old(refetches))
      ensures old(itemToDelete).Some? && (deleteItemType == "supplier" || deleteItemType == "equipment") ==>
        var call := if deleteItemType == "supplier"
          then Session.DeleteSupplierCall(Get(old(itemToDelete).value, "id"))
          else Session.DeleteEquipmentCall(Get(old(itemToDelete).value, "id"));
        && calls == old(calls) + [call]
        && (respond(call).success ==>
              !isDeleteModalOpen && itemToDelete == None && supplierToDelete == None
              && refetches == old(refetches) + 1)
        && (!respond(call).success ==>
              isDeleteModalOpen == old(isDeleteModalOpen) && itemToDelete == old(itemToDelete)
              && supplierToDelete == old(supplierToDelete) && refetches == old(refetches))
    {
      if itemToDelete.None? {
        return;
      }
      var response: Option<Session.Mutation> := None;
      var id := Get(itemToDelete.value, "id");
      if deleteItemType == "supplier" {
        var call := Session.DeleteSupplierCall(id);
        calls := calls + [call];
        var r := respond(call);
        response := Some(r);
        if r.success {
          isDeleteModalOpen := false;
          supplierToDelete := None;
          refetches := refetches + 1;
        }
      } else if deleteItemType == "equipment" {
        var call := Session.DeleteEquipmentCall(id);
        calls := calls + [call];
        var r := respond(call);
        response := Some(r);
        if r.success {
          isDeleteModalOpen := false;
          supplierToDelete := None;
          refetches := refetches + 1;
        }
      }
      if response.Some? && response.value.success {
        isDeleteModalOpen := false;
        itemToDelete := None;
      }
    }
  }
}
