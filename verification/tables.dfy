/**
 * The three input relations of the scoring engine (suppliers,
 * purchase_orders, deliveries), as loaded into the warehouse.
 */
module Tables {

  import opened Sorting

  /** A calendar date as a day number, so that a difference of dates in days is a subtraction. */
  type Date = int

  datatype Supplier = Supplier(
    supplierId: string,
    supplierName: string,
    category: string,
    country: string,
    financialRiskScore: int)

  datatype PurchaseOrder = PurchaseOrder(
    poId: string,
    supplierId: string,
    orderDate: Date,
    promisedDate: Date,
    quantityOrdered: int)

  datatype Delivery = Delivery(
    poId: string,
    deliveryDate: Date,
    quantityDelivered: int,
    qualityIssues: int)

  /** `supplier_id` is the primary key of the suppliers table. */
  predicate UniqueSupplierIds(ss: seq<Supplier>)
  {
    forall i, j :: 0 <= i < j < |ss| ==> ss[i].supplierId != ss[j].supplierId
  }

  /** Lexicographic order of VARCHAR values, character by character. */
  predicate StringLe(a: string, b: string)
  {
    a == [] || (b != [] && (a[0] < b[0] || (a[0] == b[0] && StringLe(a[1..], b[1..]))))
  }

  lemma {:induction false} StringLeTotal(a: string, b: string)
    ensures StringLe(a, b) || StringLe(b, a)
  {
    if a != [] && b != [] && a[0] == b[0] {
      StringLeTotal(a[1..], b[1..]);
    }
  }

  lemma {:induction false} StringLeTransitive(a: string, b: string, c: string)
    requires StringLe(a, b) && StringLe(b, c)
    ensures StringLe(a, c)
  {
    if a != [] && b != [] && c != [] && a[0] == b[0] && b[0] == c[0] {
      StringLeTransitive(a[1..], b[1..], c[1..]);
    }
  }

  /** The order of `ORDER BY supplier_id`. */
  predicate IdLe(s: Supplier, t: Supplier)
  {
    StringLe(s.supplierId, t.supplierId)
  }

  lemma IdLeIsTotalPreorder()
    ensures TotalPreorder(IdLe)
  {
    forall a, b ensures IdLe(a, b) || IdLe(b, a) {
      StringLeTotal(a.supplierId, b.supplierId);
    }
    forall a, b, c | IdLe(a, b) && IdLe(b, c) ensures IdLe(a, c) {
      StringLeTransitive(a.supplierId, b.supplierId, c.supplierId);
    }
  }

  /** Dropping the first supplier keeps the ids unique, and its id does not occur again. */
  lemma UniqueIdsTail(ss: seq<Supplier>)
    requires UniqueSupplierIds(ss) && ss != []
    ensures UniqueSupplierIds(ss[1..])
    ensures forall t :: t in ss[1..] ==> t.supplierId != ss[0].supplierId
  {
    forall i, j | 0 <= i < j < |ss[1..]| ensures ss[1..][i].supplierId != ss[1..][j].supplierId {
      assert ss[1..][i] == ss[i + 1] && ss[1..][j] == ss[j + 1];
    }
    forall t | t in ss[1..] ensures t.supplierId != ss[0].supplierId {
      var k :| 0 <= k < |ss[1..]| && ss[1..][k] == t;
      assert t == ss[k + 1];
    }
  }

  /** Each supplier id occurs at most once, so every supplier record occurs at most once. */
  lemma {:induction false} UniqueIdsCountOnce(ss: seq<Supplier>, s: Supplier)
    requires UniqueSupplierIds(ss)
    ensures multiset(ss)[s] <= 1
  {
    if ss != [] {
      assert ss == [ss[0]] + ss[1..];
      UniqueIdsTail(ss);
      UniqueIdsCountOnce(ss[1..], s);
    }
  }

  /** Reordering a table with unique supplier ids keeps the ids unique. */
  lemma UniqueIdsPermutation(a: seq<Supplier>, b: seq<Supplier>)
    requires UniqueSupplierIds(a)
    requires multiset(a) == multiset(b)
    ensures UniqueSupplierIds(b)
  {
    forall i, j | 0 <= i < j < |b| ensures b[i].supplierId != b[j].supplierId {
      assert b[i] in multiset(a) && b[j] in multiset(a);
      var p :| 0 <= p < |a| && a[p] == b[i];
      var q :| 0 <= q < |a| && a[q] == b[j];
      // b[i] and b[j] are counted separately in multiset(b), which holds each value at most once
      assert b == b[..j] + b[j..];
      assert b[i] in b[..j] && b[j] in b[j..];
      assert multiset(b)[b[i]] == multiset(b[..j])[b[i]] + multiset(b[j..])[b[i]];
      UniqueIdsCountOnce(a, b[i]);
    }
  }
}
