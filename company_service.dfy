/** Company registration and lookup over the `company_profiles` table, whose
    owner emails are unique. */
module CompanyService {
  import opened Wrappers
  import opened Text
  import opened Models
  import opened Validation

  /** The error of a registration that collides with a stored owner email. */
  const DuplicateEmail := "A company with this email already exists"

  /** The fields the row is built from are all strings. */
  predicate Registrable(data: Data) {
    && CompanyName in data && data[CompanyName].Str?
    && OwnerName in data && data[OwnerName].Str?
    && OwnerEmail in data && data[OwnerEmail].Str?
    && OwnerPhone in data && data[OwnerPhone].Str?
    && GhlLocationId in data && data[GhlLocationId].Str?
  }

  /** Data that passes `validate_company_data` has every row field as a string. */
  lemma AcceptedIsRegistrable(data: Data)
    requires CompanyShaped(data) && CompanyErrors(data) == NoErrors
    ensures Registrable(data)
  {
    CompanyAccepted(data);
  }

  /** The row `register_company` builds: every field stripped. */
  function NewCompany(id: int, data: Data): (c: Company)
    requires Registrable(data)
    ensures c.id == id
    ensures c.companyName == Strip(data[CompanyName].s) && c.ownerName == Strip(data[OwnerName].s)
    ensures c.ownerEmail == Strip(data[OwnerEmail].s) && c.ownerPhone == Strip(data[OwnerPhone].s)
    ensures c.ghlLocationId == Strip(data[GhlLocationId].s)
  {
    Company(id, Strip(data[CompanyName].s), Strip(data[OwnerName].s), Strip(data[OwnerPhone].s),
      Strip(data[OwnerEmail].s), Strip(data[GhlLocationId].s))
  }

  /** Rows that pass validation are stored with non-empty names. */
  lemma NewCompanyNamesNotEmpty(id: int, data: Data)
    requires CompanyShaped(data) && CompanyErrors(data) == NoErrors
    ensures Registrable(data)
    ensures NewCompany(id, data).companyName != [] && NewCompany(id, data).ownerName != []
  {
    CompanyAccepted(data);
  }

  /** Some stored row has this owner email. */
  predicate EmailTaken(rows: map<int, Company>, email: string) {
    exists id :: id in rows && rows[id].ownerEmail == email
  }

  /** The `company_profiles` table. */
  class CompanyTable {
    var rows: map<int, Company>
    /** The id the next inserted row gets. */
    var nextId: int

    /** Ids are positive, below nextId and stored in their rows; no two rows
        share an owner email (the unique column). */
    ghost predicate Valid()
      reads this
    {
      && nextId >= 1
      && (forall id :: id in rows ==> 1 <= id < nextId && rows[id].id == id)
      && (forall a, b :: a in rows && b in rows && rows[a].ownerEmail == rows[b].ownerEmail ==> a == b)
    }

    constructor ()
      ensures Valid() && rows == map[] && nextId == 1
    {
      rows := map[];
      nextId := 1;
    }

    /** `register_company(data)`: invalid data returns its validation errors
        and a stripped owner email already stored returns the duplicate error,
        both leaving the table as it was; otherwise the stripped row is added
        under a fresh id. */
    method RegisterCompany(data: Data) returns (r: Result<Company, Errors>)
      requires Valid() && CompanyShaped(data)
      modifies this
      ensures Valid()
      ensures CompanyErrors(data) != NoErrors ==>
        r == Err(CompanyErrors(data)) && rows == old(rows) && nextId == old(nextId)
      ensures CompanyErrors(data) == NoErrors ==> Registrable(data)
      ensures CompanyErrors(data) == NoErrors && EmailTaken(old(rows), Strip(data[OwnerEmail].s)) ==>
        r == Err(NoErrors.(ownerEmail := [DuplicateEmail])) && rows == old(rows) && nextId == old(nextId)
      ensures CompanyErrors(data) == NoErrors && !EmailTaken(old(rows), Strip(data[OwnerEmail].s)) ==>
        r == Ok(NewCompany(old(nextId), data)) && rows == old(rows)[old(nextId) := r.value]
        && nextId == old(nextId) + 1
    {
      var validation := ValidateCompanyData(data);
      if !validation.isValid {
        return Err(validation.errors);
      }
      AcceptedIsRegistrable(data);
      var company := NewCompany(nextId, data);
      if exists id :: id in rows && rows[id].ownerEmail == company.ownerEmail {
        return Err(NoErrors.(ownerEmail := [DuplicateEmail]));
      }
      Insert(company);
      r := Ok(company);
    }

    /** `db.session.add(company); db.session.commit()` for an email not yet
        stored. */
    method Insert(company: Company)
      requires Valid() && company.id == nextId && !EmailTaken(rows, company.ownerEmail)
      modifies this
      ensures Valid()
      ensures rows == old(rows)[old(nextId) := company] && nextId == old(nextId) + 1
    {
      rows := rows[nextId := company];
      nextId := nextId + 1;
    }

    /** `get_company(company_id)` */
    function GetCompany(companyId: int): (r: Option<Company>)
      requires Valid()
      reads this
      ensures r.Some? <==> companyId in rows
      ensures r.Some? ==> r.value in rows.Values && r.value.id == companyId
    {
      if companyId in rows then Some(rows[companyId]) else None
    }

    /** `get_company_by_email(email)`: the row with that exact owner email, or
        None. */
    function GetCompanyByEmail(email: string): (r: Option<Company>)
      requires Valid()
      reads this
      ensures r.Some? ==> r.value in rows.Values && r.value.ownerEmail == email
      ensures r.None? <==> !EmailTaken(rows, email)
    {
      var k := FindFirst(rows, (c: Company) => c.ownerEmail == email, 1, nextId);
      if k.Some? then Some(rows[k.value]) else None
    }

    /** Owner emails are unique, so the lookup by email finds the one row
        that has it. */
    lemma GetCompanyByEmailFindsOwner(id: int)
      requires Valid() && id in rows
      ensures GetCompanyByEmail(rows[id].ownerEmail) == Some(rows[id])
    {
    }
  }
}
