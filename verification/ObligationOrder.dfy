/** The order of financial obligations, as derived for a case and as restored by the migration that
    gave stored obligations their sequence numbers. */
module ObligationOrder {
  import opened Common
  import opened Sorting

  datatype Template = Template(target: string, operation: string, authorityClass: string)

  /** A stored obligation with the requirement it belongs to. */
  datatype Row = Row(id: string, requirement: string, target: string, operation: string, authorityClass: string)

  function OperationOrder(operation: string): int {
    if operation == "purchase_order.confirm" then 1
    else if operation in {"purchase_order.create_draft", "vendor_bill.create_draft", "expense_report.create"} then 0
    else 99
  }

  function DeriveKey(x: Template): Key {
    [Text(x.target), Number(OperationOrder(x.operation)), Text(x.operation)]
  }

  function LegacyKey(r: Row): Key {
    [Text(r.target), Number(OperationOrder(r.operation)), Text(r.operation), Text(r.authorityClass), Text(r.id)]
  }

  // ---------- Derivation ----------

  function ExpectedOperations(kind: string): Option<set<string>> {
    if kind == "procurement-request" then Some({"purchase_order.create_draft", "purchase_order.confirm"})
    else if kind == "invoice-ap-preparation" then Some({"vendor_bill.create_draft"})
    else if kind == "expense-reimbursement" then Some({"expense_report.create"})
    else None
  }

  /** The obligation for a template; its id is a function of the case, the epoch and the operation. */
  function RowOf(requirement: string, ids: string -> string): Template -> Row {
    (x: Template) => Row(ids(x.operation), requirement, x.target, x.operation, x.authorityClass)
  }

  ghost function Derived(requirement: string, templates: seq<Template>, ids: string -> string): seq<Row> {
    Map(RowOf(requirement, ids), SortBy(DeriveKey, templates))
  }

  predicate InContract(templates: seq<Template>, expected: set<string>) {
    forall x :: x in templates ==> x.target == "erp" && x.operation in expected
  }

  predicate Derivable(kind: string, hasFacts: bool, policyCurrent: bool, templates: seq<Template>) {
    && hasFacts && policyCurrent && templates != []
    && var expected := ExpectedOperations(kind); expected.Some? && InContract(templates, expected.value)
  }

  /** Obligations are derived exactly with facts, the current policy and some effect, if all effects go to
      the ERP and do what this kind of case is for. */
  lemma DerivableInFull(kind: string, hasFacts: bool, policyCurrent: bool, templates: seq<Template>)
    ensures Derivable(kind, hasFacts, policyCurrent, templates) <==>
            && hasFacts && policyCurrent && templates != []
            && (forall x :: x in templates ==> x.target == "erp")
            && kind in ["procurement-request", "invoice-ap-preparation", "expense-reimbursement"]
            && (kind == "procurement-request" ==>
                  forall x :: x in templates ==>
                    x.operation in ["purchase_order.create_draft", "purchase_order.confirm"])
            && (kind == "invoice-ap-preparation" ==>
                  forall x :: x in templates ==> x.operation == "vendor_bill.create_draft")
            && (kind == "expense-reimbursement" ==>
                  forall x :: x in templates ==> x.operation == "expense_report.create")
  {
    assert "procurement-request"[0] != "invoice-ap-preparation"[0];
    assert "expense-reimbursement"[0] == 'e';
  }

  /** All or nothing: one template outside the contract refuses the whole set. */
  method DeriveFinancialObligations(kind: string, hasFacts: bool, policyCurrent: bool, requirement: string,
                                    templates: seq<Template>, ids: string -> string) returns (r: Result<seq<Row>>)
    ensures r.Ok? <==> Derivable(kind, hasFacts, policyCurrent, templates)
    ensures r.Ok? ==> r.value == Derived(requirement, templates, ids)
  {
    var expected := ExpectedOperations(kind);
    if expected.None? {
      return Err("financial obligations require a supported transaction case");
    }
    if !hasFacts || !policyCurrent || templates == [] {
      return Err("financial obligations require current facts, policy and effects");
    }
    r := DeriveSorted(expected.value, requirement, templates, ids);
  }

  method DeriveSorted(expected: set<string>, requirement: string, templates: seq<Template>, ids: string -> string)
    returns (r: Result<seq<Row>>)
    ensures r.Ok? <==> InContract(templates, expected)
    ensures r.Ok? ==> r.value == Derived(requirement, templates, ids)
  {
    var sorted := SortBy(DeriveKey, templates);
    SameElements(templates, sorted);
    r := DeriveInOrder(expected, requirement, sorted, ids);
  }

  method DeriveInOrder(expected: set<string>, requirement: string, sorted: seq<Template>, ids: string -> string)
    returns (r: Result<seq<Row>>)
    ensures r.Ok? <==> InContract(sorted, expected)
    ensures r.Ok? ==> r.value == Map(RowOf(requirement, ids), sorted)
  {
    var obligations: seq<Row> := [];
    for i := 0 to |sorted|
      invariant InContract(sorted[..i], expected)
      invariant obligations == Map(RowOf(requirement, ids), sorted[..i])
    {
      var x := sorted[i];
      assert x in sorted;
      if x.target != "erp" || x.operation !in expected {
        return Err("financial effect is outside the case contract");
      }
      assert sorted[..i + 1] == sorted[..i] + [x];
      obligations := obligations + [RowOf(requirement, ids)(x)];
    }
    assert sorted[..|sorted|] == sorted;
    return Ok(obligations);
  }

  lemma SameElements<T>(a: seq<T>, b: seq<T>)
    requires multiset(a) == multiset(b)
    ensures forall x :: x in a <==> x in b
  {
    forall x ensures x in a <==> x in b {
      assert x in a <==> x in multiset(a);
      assert x in b <==> x in multiset(b);
    }
  }

  // ---------- The migration ----------

  function GroupOf(rows: seq<Row>, requirement: string): seq<Row> {
    if rows == [] then []
    else
      var n := |rows| - 1;
      GroupOf(rows[..n], requirement) + if rows[n].requirement == requirement then [rows[n]] else []
  }

  lemma {:induction false} GroupMembers(rows: seq<Row>, requirement: string)
    ensures forall x :: x in GroupOf(rows, requirement) <==> x in rows && x.requirement == requirement
  {
    if rows != [] {
      var n := |rows| - 1;
      GroupMembers(rows[..n], requirement);
      assert rows == rows[..n] + [rows[n]];
    }
  }

  ghost function Ordered(rows: seq<Row>, requirement: string): seq<Row> {
    SortBy(LegacyKey, GroupOf(rows, requirement))
  }

  lemma OrderedMembers(rows: seq<Row>, requirement: string)
    ensures forall x :: x in Ordered(rows, requirement) <==> x in GroupOf(rows, requirement)
    ensures |Ordered(rows, requirement)| == |GroupOf(rows, requirement)|
  {
    var group, ordered := GroupOf(rows, requirement), Ordered(rows, requirement);
    SameElements(group, ordered);
    assert |multiset(group)| == |group| && |multiset(ordered)| == |ordered|;
  }

  /** The obligation id is the primary key. */
  ghost predicate DistinctIds(rows: seq<Row>) {
    forall i, j :: 0 <= i < j < |rows| ==> rows[i].id != rows[j].id
  }

  /** The rows of each requirement are numbered by their position in legacy order. */
  ghost predicate NumberedBy(rows: seq<Row>, requirement: string, numbers: map<string, nat>) {
    forall k :: 0 <= k < |Ordered(rows, requirement)| ==>
      Ordered(rows, requirement)[k].id in numbers && numbers[Ordered(rows, requirement)[k].id] == k
  }

  method GroupRows(rows: seq<Row>) returns (grouped: map<string, seq<Row>>)
    ensures forall g :: if g in grouped then grouped[g] == GroupOf(rows, g) else GroupOf(rows, g) == []
  {
    grouped := map[];
    for i := 0 to |rows|
      invariant forall g :: if g in grouped then grouped[g] == GroupOf(rows[..i], g) else GroupOf(rows[..i], g) == []
    {
      assert rows[..i + 1][..i] == rows[..i];
      var g := rows[i].requirement;
      grouped := grouped[g := (if g in grouped then grouped[g] else []) + [rows[i]]];
    }
    assert rows[..|rows|] == rows;
  }

  lemma {:induction false} PermutedIdsDistinct(a: seq<Row>, b: seq<Row>)
    requires DistinctIds(a) && multiset(a) == multiset(b)
    ensures DistinctIds(b)
  {
    forall i, j | 0 <= i < j < |b| ensures b[i].id != b[j].id {
      TakeOut(b, j);
      var rest := b[..j] + b[j + 1..];
      assert rest[i] == b[i];
      assert b[j] in multiset(a);
      var k :| 0 <= k < |a| && a[k] == b[j];
      TakeOut(a, k);
      assert b[i] in multiset(a[..k] + a[k + 1..]);
      var m :| 0 <= m < |a[..k] + a[k + 1..]| && (a[..k] + a[k + 1..])[m] == b[i];
      assert b[i] == if m < k then a[m] else a[m + 1];
    }
  }

  lemma {:induction false} GroupIdsDistinct(rows: seq<Row>, requirement: string)
    requires DistinctIds(rows)
    ensures DistinctIds(GroupOf(rows, requirement))
  {
    if rows != [] {
      var n := |rows| - 1;
      GroupIdsDistinct(rows[..n], requirement);
      GroupMembers(rows[..n], requirement);
      var front := GroupOf(rows[..n], requirement);
      forall i | 0 <= i < |front| ensures front[i].id != rows[n].id {
        assert front[i] in front;
      }
    }
  }

  lemma OrderedIdsDistinct(rows: seq<Row>, requirement: string)
    requires DistinctIds(rows)
    ensures DistinctIds(Ordered(rows, requirement))
  {
    GroupIdsDistinct(rows, requirement);
    PermutedIdsDistinct(GroupOf(rows, requirement), Ordered(rows, requirement));
  }

  ghost predicate HasId(rows: seq<Row>, id: string) {
    exists x :: x in rows && x.id == id
  }

  /** Enumerates one group in legacy order. */
  method NumberGroup(ghost rows: seq<Row>, ghost requirement: string, group: seq<Row>, numbers: map<string, nat>)
    returns (r: map<string, nat>)
    requires DistinctIds(rows) && group == GroupOf(rows, requirement)
    ensures NumberedBy(rows, requirement, r)
    ensures forall id :: id in numbers ==> id in r
    ensures forall id :: id in r ==> id in numbers || HasId(rows, id)
    ensures forall id :: id in numbers && (forall x :: x in group ==> x.id != id) ==> r[id] == numbers[id]
  {
    OrderedIdsDistinct(rows, requirement);
    GroupMembers(rows, requirement);
    var sorted := SortBy(LegacyKey, group);
    SameElements(group, sorted);
    r := Enumerate(sorted, numbers);
  }

  method Enumerate(sorted: seq<Row>, numbers: map<string, nat>) returns (r: map<string, nat>)
    requires DistinctIds(sorted)
    ensures forall j :: 0 <= j < |sorted| ==> sorted[j].id in r && r[sorted[j].id] == j
    ensures forall id :: id in r <==> id in numbers || exists x :: x in sorted && x.id == id
    ensures forall id :: id in numbers && (forall x :: x in sorted ==> x.id != id) ==> r[id] == numbers[id]
  {
    r := numbers;
    for k := 0 to |sorted|
      invariant forall j :: 0 <= j < k ==> sorted[j].id in r && r[sorted[j].id] == j
      invariant forall id :: id in r <==> id in numbers || exists x :: x in sorted[..k] && x.id == id
      invariant forall id :: id in numbers && (forall x :: x in sorted ==> x.id != id) ==> r[id] == numbers[id]
    {
      assert sorted[k] in sorted;
      assert sorted[..k + 1] == sorted[..k] + [sorted[k]];
      r := r[sorted[k].id := k];
    }
    assert sorted[..|sorted|] == sorted;
  }

  lemma OthersKeepNumbers(rows: seq<Row>, g: string, h: string, before: map<string, nat>, after: map<string, nat>)
    requires DistinctIds(rows) && g != h && NumberedBy(rows, h, before)
    requires forall id :: id in before ==> id in after
    requires forall id :: id in before && (forall x :: x in GroupOf(rows, g) ==> x.id != id) ==> after[id] == before[id]
    ensures NumberedBy(rows, h, after)
  {
    GroupMembers(rows, g);
    GroupMembers(rows, h);
    OrderedMembers(rows, h);
    forall k | 0 <= k < |Ordered(rows, h)|
      ensures Ordered(rows, h)[k].id in after && after[Ordered(rows, h)[k].id] == k
    {
      var y := Ordered(rows, h)[k];
      assert y in Ordered(rows, h);
      forall x | x in GroupOf(rows, g) ensures x.id != y.id {
        var i :| 0 <= i < |rows| && rows[i] == x;
        var j :| 0 <= j < |rows| && rows[j] == y;
      }
    }
  }

  /** Numbers the rows of each requirement, requirement by requirement. */
  method Upgrade(rows: seq<Row>) returns (numbers: map<string, nat>)
    requires DistinctIds(rows)
    ensures forall g :: NumberedBy(rows, g, numbers)
    ensures forall id :: id in numbers ==> HasId(rows, id)
  {
    numbers := map[];
    var grouped := GroupRows(rows);
    var pending := grouped.Keys;
    while pending != {}
      invariant pending <= grouped.Keys
      invariant forall g :: g !in pending ==> NumberedBy(rows, g, numbers)
      invariant forall id :: id in numbers ==> HasId(rows, id)
      decreases |pending|
    {
      var g :| g in pending;
      ghost var before := numbers;
      numbers := NumberGroup(rows, g, grouped[g], numbers);
      pending := pending - {g};
      forall h | h !in pending ensures NumberedBy(rows, h, numbers) {
        if h != g {
          OthersKeepNumbers(rows, g, h, before, numbers);
        }
      }
    }
    assert forall g :: g !in grouped ==> GroupOf(rows, g) == [];
  }

  // ---------- What the numbers mean ----------

  ghost predicate HasNumber(rows: seq<Row>, numbers: map<string, nat>, k: nat) {
    exists x :: x in rows && x.id in numbers && numbers[x.id] == k
  }

  /** The numbers of a requirement are exactly 0 to n - 1, each once. */
  lemma NumbersAreOrdinals(rows: seq<Row>, requirement: string, numbers: map<string, nat>)
    requires NumberedBy(rows, requirement, numbers)
    ensures forall x :: x in GroupOf(rows, requirement) ==>
              x.id in numbers && numbers[x.id] < |GroupOf(rows, requirement)|
    ensures forall x, y :: x in GroupOf(rows, requirement) && y in GroupOf(rows, requirement) && x != y ==>
              numbers[x.id] != numbers[y.id]
    ensures forall k :: 0 <= k < |GroupOf(rows, requirement)| ==> HasNumber(GroupOf(rows, requirement), numbers, k)
  {
    var group, ordered := GroupOf(rows, requirement), Ordered(rows, requirement);
    OrderedMembers(rows, requirement);
    forall x | x in group ensures x.id in numbers && numbers[x.id] < |group| && ordered[numbers[x.id]] == x {
      assert x in ordered;
    }
    forall k | 0 <= k < |group| ensures HasNumber(group, numbers, k) {
      assert ordered[k] in group;
    }
  }

  lemma {:induction false} GroupOfJoined(a: seq<Row>, b: seq<Row>, requirement: string)
    ensures GroupOf(a + b, requirement) == GroupOf(a, requirement) + GroupOf(b, requirement)
    decreases |b|
  {
    if b == [] {
      assert a + b == a;
    } else {
      var n := |b| - 1;
      assert (a + b)[..|a| + n] == a + b[..n];
      GroupOfJoined(a, b[..n], requirement);
    }
  }

  function Share(row: Row, requirement: string): multiset<Row> {
    if row.requirement == requirement then multiset{row} else multiset{}
  }

  lemma GroupTakeOut(rows: seq<Row>, j: nat, requirement: string)
    requires j < |rows|
    ensures multiset(GroupOf(rows, requirement))
            == multiset(GroupOf(rows[..j] + rows[j + 1..], requirement)) + Share(rows[j], requirement)
  {
    assert rows == rows[..j] + ([rows[j]] + rows[j + 1..]);
    GroupOfJoined(rows[..j], [rows[j]] + rows[j + 1..], requirement);
    GroupOfJoined([rows[j]], rows[j + 1..], requirement);
    GroupOfJoined(rows[..j], rows[j + 1..], requirement);
  }

  lemma GroupStep(a: seq<Row>, b: seq<Row>, j: nat, requirement: string)
    requires a != [] && j < |b| && b[j] == a[0]
    requires multiset(GroupOf(a[1..], requirement)) == multiset(GroupOf(b[..j] + b[j + 1..], requirement))
    ensures multiset(GroupOf(a, requirement)) == multiset(GroupOf(b, requirement))
  {
    assert a == [a[0]] + a[1..];
    GroupOfJoined([a[0]], a[1..], requirement);
    GroupTakeOut(b, j, requirement);
  }

  lemma {:induction false} GroupPermutes(a: seq<Row>, b: seq<Row>, requirement: string)
    requires multiset(a) == multiset(b)
    ensures multiset(GroupOf(a, requirement)) == multiset(GroupOf(b, requirement))
    decreases |a|
  {
    if a == [] {
      assert |multiset(b)| == |b|;
    } else {
      assert a[0] in multiset(b);
      var j :| 0 <= j < |b| && b[j] == a[0];
      TakeOutBoth(a, b, j);
      GroupPermutes(a[1..], b[..j] + b[j + 1..], requirement);
      GroupStep(a, b, j, requirement);
    }
  }

  /** The order in which the database returns the rows makes no difference. */
  lemma RowOrderIrrelevant(rows: seq<Row>, rows': seq<Row>, requirement: string)
    requires DistinctIds(rows) && multiset(rows) == multiset(rows')
    ensures Ordered(rows, requirement) == Ordered(rows', requirement)
  {
    GroupPermutes(rows, rows', requirement);
    OrderedIdsDistinct(rows, requirement);
    IdsIdentify(Ordered(rows, requirement));
    SortedUnique(LegacyKey, Ordered(rows, requirement), Ordered(rows', requirement));
  }

  lemma IdsIdentify(rows: seq<Row>)
    requires DistinctIds(rows)
    ensures KeyIdentifies(LegacyKey, rows)
  {
    forall x, y | x in rows && y in rows && LegacyKey(x) == LegacyKey(y) ensures x == y {
      assert LegacyKey(x)[4] == Text(x.id) && LegacyKey(y)[4] == Text(y.id);
      var i :| 0 <= i < |rows| && rows[i] == x;
      var j :| 0 <= j < |rows| && rows[j] == y;
    }
  }

  lemma {:induction false} PrefixDecides(a: Key, b: Key, c: Key, d: Key)
    requires |a| == |b| && KeyBefore(a, b)
    ensures KeyBefore(a + c, b + d)
  {
    assert (a + c)[0] == a[0] && (b + d)[0] == b[0];
    if a[0] == b[0] {
      PartOrder(a[0], a[0], a[0]);
      assert (a + c)[1..] == a[1..] + c && (b + d)[1..] == b[1..] + d;
      PrefixDecides(a[1..], b[1..], c, d);
    }
  }

  /** Templates in derivation order, with different operations, are rows in legacy order. */
  lemma LegacyFollowsDerivation(x: Template, y: Template, requirement: string, ids: string -> string)
    requires !KeyBefore(DeriveKey(y), DeriveKey(x)) && x.operation != y.operation
    ensures !KeyBefore(LegacyKey(RowOf(requirement, ids)(y)), LegacyKey(RowOf(requirement, ids)(x)))
  {
    var a, b := DeriveKey(x), DeriveKey(y);
    assert a[2] != b[2];
    KeyTotal(a, b);
    var c, d := [Text(x.authorityClass), Text(ids(x.operation))], [Text(y.authorityClass), Text(ids(y.operation))];
    PrefixDecides(a, b, c, d);
    assert LegacyKey(RowOf(requirement, ids)(x)) == a + c && LegacyKey(RowOf(requirement, ids)(y)) == b + d;
    Asymmetric(a + c, b + d);
  }

  lemma Asymmetric(a: Key, b: Key)
    requires KeyBefore(a, b)
    ensures !KeyBefore(b, a)
  {
    if KeyBefore(b, a) {
      KeyTransitive(a, b, a);
      KeyIrreflexive(a);
    }
  }

  lemma DerivedInLegacyOrder(requirement: string, templates: seq<Template>, ids: string -> string)
    requires DistinctIds(Derived(requirement, templates, ids))
    ensures Sorted(LegacyKey, Derived(requirement, templates, ids))
  {
    var sorted, rows := SortBy(DeriveKey, templates), Derived(requirement, templates, ids);
    forall i, j | 0 <= i < j < |rows| ensures !KeyBefore(LegacyKey(rows[j]), LegacyKey(rows[i])) {
      assert rows[i].id == ids(sorted[i].operation) && rows[j].id == ids(sorted[j].operation);
      LegacyFollowsDerivation(sorted[i], sorted[j], requirement, ids);
    }
  }

  /** Whatever else is stored, and in whatever order the rows come: the obligations derived for a
      requirement get back the positions they were derived in. */
  lemma MigrationRestoresOrder(rows: seq<Row>, numbers: map<string, nat>,
                               requirement: string, templates: seq<Template>, ids: string -> string, k: nat)
    requires DistinctIds(rows) && NumberedBy(rows, requirement, numbers)
    requires multiset(GroupOf(rows, requirement)) == multiset(Derived(requirement, templates, ids))
    requires k < |Derived(requirement, templates, ids)|
    ensures Derived(requirement, templates, ids)[k].id in numbers
    ensures numbers[Derived(requirement, templates, ids)[k].id] == k
  {
    var derived := Derived(requirement, templates, ids);
    OrderedIdsDistinct(rows, requirement);
    PermutedIdsDistinct(Ordered(rows, requirement), derived);
    DerivedInLegacyOrder(requirement, templates, ids);
    IdsIdentify(derived);
    SortedUnique(LegacyKey, derived, Ordered(rows, requirement));
  }

  /** A draft comes before its confirmation. */
  lemma DraftBeforeConfirm(requirement: string, templates: seq<Template>, ids: string -> string, i: nat, j: nat)
    requires i < |Derived(requirement, templates, ids)| && j < |Derived(requirement, templates, ids)|
    requires Derived(requirement, templates, ids)[i].operation == "purchase_order.create_draft"
    requires Derived(requirement, templates, ids)[j].operation == "purchase_order.confirm"
    requires Derived(requirement, templates, ids)[i].target == Derived(requirement, templates, ids)[j].target
    ensures i < j
  {
    var sorted := SortBy(DeriveKey, templates);
    DraftKeyFirst(sorted[i], sorted[j]);
  }

  lemma DraftKeyFirst(x: Template, y: Template)
    requires x.operation == "purchase_order.create_draft" && y.operation == "purchase_order.confirm"
             && x.target == y.target
    ensures KeyBefore(DeriveKey(x), DeriveKey(y)) && x != y
  {
    assert x.operation[16] != y.operation[16];
    assert DeriveKey(x)[1..][0] == Number(0) && DeriveKey(y)[1..][0] == Number(1);
  }
}
