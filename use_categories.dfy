// The categories hook: fetching a tenant's ticket categories and keeping the usable ones.
module UseCategories {
  import opened Wrappers
  import opened UseTenant
  import opened ApiClient

  /** `Category`; the fields the hook never reads are kept for fidelity of the record. */
  datatype Category = Category(
    id: string, name: string, description: string, color: string, icon: string,
    isActive: bool, slaHours: int, createdAt: string, updatedAt: string, tenantId: string)

  const NoTenantError := "Tenant não identificado"
  const FetchError := "Não foi possível carregar as categorias"

  function CategoriesPath(t: TenantInfo): string {
    "/" + t.slug + "/ticket-category"
  }

  predicate Usable(c: Category, tenantId: string) {
    c.isActive && c.tenantId == tenantId
  }

  /** `response.data.filter(category => category.isActive && category.tenantId === tenant.id)`. */
  function ValidCategories(data: seq<Category>, tenantId: string): (kept: seq<Category>)
    ensures |kept| <= |data|
    ensures forall c :: c in kept ==> c in data && Usable(c, tenantId)
  {
    if data == [] then []
    else if Usable(data[0], tenantId) then [data[0]] + ValidCategories(data[1..], tenantId)
    else ValidCategories(data[1..], tenantId)
  }

  /** A category is kept exactly when it is in the response and usable. */
  lemma {:induction false} KeptIff(data: seq<Category>, tenantId: string, c: Category)
    ensures c in ValidCategories(data, tenantId) <==> c in data && Usable(c, tenantId)
  {
    if data != [] {
      KeptIff(data[1..], tenantId, c);
      assert c in data <==> c == data[0] || c in data[1..];
    }
  }

  /** The filter works element by element: filtering a concatenation filters
      each part, so every copy of a usable category is kept. */
  lemma {:induction false} FilterAppend(a: seq<Category>, b: seq<Category>, tenantId: string)
    ensures ValidCategories(a + b, tenantId) == ValidCategories(a, tenantId) + ValidCategories(b, tenantId)
    decreases |a|
  {
    if a == [] {
      assert a + b == b;
    } else {
      assert (a + b)[0] == a[0] && (a + b)[1..] == a[1..] + b;
      FilterAppend(a[1..], b, tenantId);
    }
  }

  /** A one-element response is kept exactly when its category is usable. */
  lemma FilterSingle(c: Category, tenantId: string)
    ensures ValidCategories([c], tenantId) == if Usable(c, tenantId) then [c] else []
  {
  }

  /** Each category occurs in the kept list as often as in the response when it
      is usable, and not at all otherwise. */
  lemma {:induction false} KeptCount(data: seq<Category>, tenantId: string, c: Category)
    ensures multiset(ValidCategories(data, tenantId))[c] == if Usable(c, tenantId) then multiset(data)[c] else 0
  {
    if data != [] {
      KeptCount(data[1..], tenantId, c);
      assert data == [data[0]] + data[1..];
      assert multiset(data) == multiset([data[0]]) + multiset(data[1..]);
      if Usable(data[0], tenantId) {
        var kept := ValidCategories(data, tenantId);
        assert kept == [data[0]] + ValidCategories(data[1..], tenantId);
        assert multiset(kept) == multiset([data[0]]) + multiset(ValidCategories(data[1..], tenantId));
      }
    }
  }

  /** `sub` is `s` with some elements left out, the rest in their order. */
  predicate SubsequenceOf(sub: seq<Category>, s: seq<Category>)
    decreases |s|
  {
    if sub == [] then true
    else if s == [] then false
    else (sub[0] == s[0] && SubsequenceOf(sub[1..], s[1..])) || SubsequenceOf(sub, s[1..])
  }

  /** The kept list keeps the response's order. */
  lemma {:induction false} KeptInOrder(data: seq<Category>, tenantId: string)
    ensures SubsequenceOf(ValidCategories(data, tenantId), data)
  {
    if data != [] {
      KeptInOrder(data[1..], tenantId);
      var rest := ValidCategories(data[1..], tenantId);
      if Usable(data[0], tenantId) {
        var kept := [data[0]] + rest;
        assert kept[0] == data[0] && kept[1..] == rest;
      }
    }
  }

  /** Filtering an already filtered list changes nothing. */
  lemma {:induction false} FilterIdempotent(data: seq<Category>, tenantId: string)
    ensures ValidCategories(ValidCategories(data, tenantId), tenantId) == ValidCategories(data, tenantId)
  {
    if data != [] {
      FilterIdempotent(data[1..], tenantId);
      if Usable(data[0], tenantId) {
        var kept := [data[0]] + ValidCategories(data[1..], tenantId);
        assert kept[0] == data[0] && kept[1..] == ValidCategories(data[1..], tenantId);
      }
    }
  }

  /** The hook's state. */
  class CategoriesState {
    var categories: seq<Category>
    var isLoading: bool
    var error: Option<string>

    constructor ()
      ensures categories == [] && isLoading && error.None?
    {
      categories := [];
      isLoading := true;
      error := None;
    }

    /** `fetchCategories`. A response whose data is not an array makes the
        filter throw, which ends in the same state as a failed request. */
    method FetchCategories(tenant: Option<TenantInfo>, response: ApiOutcome<Category>)
      returns (request: Option<string>)
      modifies this
      ensures tenant.None? ==> request.None? && error == Some(NoTenantError) && categories == [] && !isLoading
      ensures tenant.Some? ==> request == Some(CategoriesPath(tenant.value)) && !isLoading
      ensures tenant.Some? && response.ArrayData? ==>
        categories == ValidCategories(response.items, tenant.value.id) && error.None?
      ensures tenant.Some? && !response.ArrayData? ==> categories == [] && error == Some(FetchError)
    {
      if tenant.None? {
        error := Some(NoTenantError);
        categories := [];
        isLoading := false;
        return None;
      }
      isLoading := true;
      request := Some("/" + tenant.value.slug + "/ticket-category");
      if response.ArrayData? {
        var validCategories := ValidCategories(response.items, tenant.value.id);
        categories := validCategories;
        error := None;
      } else {
        error := Some(FetchError);
        categories := [];
      }
      isLoading := false;
    }
  }
}
