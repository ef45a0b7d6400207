/** The `check_stock` management command
    (store/management/commands/check_stock.py): one report line for each
    active part at or below its low-stock threshold. */
module CheckStock {
  import opened Text
  import opened StoreModels

  /** The command's filter `quantity <= low_stock_threshold and is_active`. */
  predicate IsLowStock(p: Part) {
    p.isActive && p.quantity <= p.lowStockThreshold
  }

  /** The selected parts, in the order the query yields them. */
  function LowStockParts(parts: seq<Part>): (r: seq<Part>)
    ensures |r| <= |parts|
    ensures forall p :: p in r <==> p in parts && IsLowStock(p)
  {
    if parts == [] then []
    else LowStockParts(parts[..|parts| - 1])
         + (if IsLowStock(parts[|parts| - 1]) then [parts[|parts| - 1]] else [])
  }

  /** Selection keeps the query's order: selecting from a concatenation concatenates the selections. */
  lemma {:induction false} LowStockPartsAppend(a: seq<Part>, b: seq<Part>)
    ensures LowStockParts(a + b) == LowStockParts(a) + LowStockParts(b)
  {
    if b == [] {
      assert a + b == a;
    } else {
      assert (a + b)[..|a + b| - 1] == a + b[..|b| - 1];
      LowStockPartsAppend(a, b[..|b| - 1]);
    }
  }

  /** An active part is reported exactly when it is low on stock or out of it. */
  lemma ReportedIffNotInStock(p: Part)
    requires p.isActive
    ensures IsLowStock(p) <==> StockStatus(p) in {OutOfStock, LowStock}
  {
  }

  /** The text written for one selected part: it opens with the part's
      name and closes after the threshold. */
  function ReportLine(p: Part): (line: string)
    ensures var head := "Low stock: " + p.name + " (Current: ";
            |line| > |head| && line[..|head|] == head && line[|line| - 1] == ')'
  {
    "Low stock: " + p.name + " (Current: "
    + (NatToString(p.quantity) + (", Threshold: " + (NatToString(p.lowStockThreshold) + ")")))
  }

  /** A report line gives back the part's quantity and threshold: two parts
      of the same name whose lines agree agree on both counts. */
  lemma ReportLineNamesCounts(p: Part, q: Part)
    requires p.name == q.name && ReportLine(p) == ReportLine(q)
    ensures p.quantity == q.quantity && p.lowStockThreshold == q.lowStockThreshold
  {
    var head := "Low stock: " + p.name + " (Current: ";
    var sep := ", Threshold: ";
    var np, nq := NatToString(p.quantity), NatToString(q.quantity);
    var tp, tq := NatToString(p.lowStockThreshold), NatToString(q.lowStockThreshold);
    CancelPrefix(head, np + (sep + (tp + ")")), nq + (sep + (tq + ")")));
    DigitRunUnique(np, sep + (tp + ")"), nq, sep + (tq + ")"));
    NatToStringInjective(p.quantity, q.quantity);
    CancelPrefix(sep, tp + ")", tq + ")");
    DigitRunUnique(tp, ")", tq, ")");
    NatToStringInjective(p.lowStockThreshold, q.lowStockThreshold);
  }

  /** `Command.handle`: the lines written to stdout, one per selected part, in order. */
  method Handle(parts: seq<Part>) returns (lines: seq<string>)
    ensures |lines| == |LowStockParts(parts)|
    ensures forall i :: 0 <= i < |lines| ==> lines[i] == ReportLine(LowStockParts(parts)[i])
  {
    lines := [];
    var i := 0;
    while i < |parts|
      invariant 0 <= i <= |parts|
      invariant |lines| == |LowStockParts(parts[..i])|
      invariant forall k :: 0 <= k < |lines| ==> lines[k] == ReportLine(LowStockParts(parts[..i])[k])
    {
      assert parts[..i + 1][..i] == parts[..i];
      if IsLowStock(parts[i]) {
        lines := lines + [ReportLine(parts[i])];
      }
      i := i + 1;
    }
    assert parts[..i] == parts;
  }
}
