/**
 * The organisations page: deletion after confirmation, and the form's save, which replaces
 * the organisation with the same id when editing and otherwise appends it with a fresh id and
 * no members. `Date.now().toString()` and the answer to `window.confirm` are inputs.
 */
module OrganizationsPage {
  import opened Wrappers
  import opened JsString
  import opened RecordList

  datatype Organization = Organization(id: string, name: string, description: string, memberCount: int)

  function OrgId(o: Organization): string { o.id }

  const InitialOrganizations: seq<Organization> := [
    Organization("1", "Acme Inc", "A leading technology company", 120),
    Organization("2", "Globex Corp", "Global solutions provider", 85),
    Organization("3", "Wayne Enterprises", "Innovative research and development", 210)
  ]

  /** `handleDeleteOrg`: every organisation with that id goes, but only when confirmed. */
  function DeleteOrganization(orgs: seq<Organization>, id: string, confirmed: bool): (r: seq<Organization>)
    ensures !confirmed ==> r == orgs
    ensures confirmed ==> forall i :: 0 <= i < |r| ==> r[i].id != id
    ensures confirmed ==> forall o :: o in orgs && o.id != id ==> o in r
    ensures forall o :: o in r ==> o in orgs
  {
    if confirmed then RemoveId(orgs, id, OrgId) else orgs
  }

  /** `onSave`: replace by id while editing, else append with a fresh id and no members. */
  function SaveOrganization(orgs: seq<Organization>, editing: Option<Organization>, org: Organization,
                            now: string): (r: seq<Organization>)
    ensures editing.Some? ==> |r| == |orgs| && Ids(r, OrgId) == Ids(orgs, OrgId)
    ensures editing.None? ==> |r| == |orgs| + 1 && r[..|orgs|] == orgs
    ensures editing.None? ==> r[|orgs|] == Organization(now, org.name, org.description, 0)
  {
    if editing.Some? then ReplaceId(orgs, org, OrgId)
    else orgs + [org.(id := now, memberCount := 0)]
  }

  datatype OrganizationForm = OrganizationForm(name: string, description: string)

  function InitialForm(org: Option<Organization>): (r: OrganizationForm)
    ensures org.None? ==> r == OrganizationForm("", "")
    ensures org.Some? ==> r == OrganizationForm(org.value.name, org.value.description)
  {
    match org
    case None => OrganizationForm("", "")
    case Some(o) => OrganizationForm(OrString(o.name, ""), OrString(o.description, ""))
  }

  /** `handleSubmit`: the organisation handed to `onSave`. */
  function SubmitOrganization(org: Option<Organization>, form: OrganizationForm, now: string): (r: Organization)
    ensures org.Some? && org.value.id != "" ==> r.id == org.value.id
    ensures !(org.Some? && org.value.id != "") ==> r.id == now
    ensures org.Some? ==> r.memberCount == org.value.memberCount
    ensures org.None? ==> r.memberCount == 0
    ensures r.name == form.name && r.description == form.description
  {
    Organization(if org.Some? then OrString(org.value.id, now) else now,
                 form.name, form.description,
                 // `organization?.memberCount || 0`: on an integer count the `|| 0` changes nothing
                 if org.Some? then org.value.memberCount else 0)
  }

  // ---------------------------------------------------------------------------------------
  // Properties

  /** Deletion keeps the order of the remaining organisations. */
  lemma DeleteKeepsOrder(a: seq<Organization>, b: seq<Organization>, id: string)
    ensures DeleteOrganization(a + b, id, true) == DeleteOrganization(a, id, true) + DeleteOrganization(b, id, true)
    ensures |DeleteOrganization(a + b, id, true)| == |a + b| - CountId(a + b, id, OrgId)
  {
    RemoveConcat(a, b, id, OrgId);
    RemoveCount(a + b, id, OrgId);
  }

  /** Editing through the form keeps the id and the member count and replaces in place. */
  lemma EditKeepsIdAndMembers(orgs: seq<Organization>, o: Organization, form: OrganizationForm,
                              now: string, i: nat)
    requires i < |orgs| && orgs[i] == o && o.id != ""
    ensures var saved := SubmitOrganization(Some(o), form, now);
            && saved.id == o.id && saved.memberCount == o.memberCount
            && SaveOrganization(orgs, Some(o), saved, now)[i] == saved
            && forall j :: 0 <= j < |orgs| && orgs[j].id != o.id ==>
                 SaveOrganization(orgs, Some(o), saved, now)[j] == orgs[j]
  {
  }

  /** A new organisation is appended once; with a fresh id, ids stay unique. */
  lemma AddAppendsOnce(orgs: seq<Organization>, org: Organization, now: string)
    requires UniqueIds(orgs, OrgId) && !HasId(orgs, now, OrgId)
    ensures UniqueIds(SaveOrganization(orgs, None, org, now), OrgId)
  {
    AppendKeepsUnique(orgs, org.(id := now, memberCount := 0), OrgId);
  }

  /** Deletion and editing keep ids unique. */
  lemma UpdatesKeepIdsUnique(orgs: seq<Organization>, id: string, confirmed: bool,
                             previous: Organization, org: Organization, now: string)
    requires UniqueIds(orgs, OrgId)
    ensures UniqueIds(DeleteOrganization(orgs, id, confirmed), OrgId)
    ensures UniqueIds(SaveOrganization(orgs, Some(previous), org, now), OrgId)
  {
    RemoveKeepsUnique(orgs, id, OrgId);
    ReplaceKeepsUnique(orgs, org, OrgId);
  }
}
