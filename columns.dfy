/**
 * The upload page's basic column check: an uploaded table is accepted only
 * when it has all fourteen required columns; otherwise the missing ones are
 * reported in the order of the required list.
 */
module Columns {
  import opened Results

  /** The columns every uploaded table must have, in reporting order. */
  const RequiredColumns: seq<string> := [
    "月份", "服务器利用率", "带宽利用率", "机柜利用率", "新客户数量",
    "客户流失率", "平均合同期限", "月收入(万元)", "利润率",
    "应收账款周转天数", "高风险客户占比", "服务中断次数",
    "市场增长率", "销售漏斗数量"
  ]

  /** The required names absent from `columns`, kept in required order. */
  function Missing(required: seq<string>, columns: seq<string>): (missing: seq<string>)
    ensures forall c :: c in missing <==> c in required && c !in columns
    ensures |missing| <= |required|
  {
    if required == [] then []
    else (if required[0] in columns then [] else [required[0]]) + Missing(required[1..], columns)
  }

  /** a can be obtained from b by deleting elements. */
  predicate IsSubsequence(a: seq<string>, b: seq<string>)
    decreases |b|
  {
    if a == [] then true
    else if b == [] then false
    else if a[0] == b[0] then IsSubsequence(a[1..], b[1..])
    else IsSubsequence(a, b[1..])
  }

  /** Putting an element in front of b keeps every subsequence of b. */
  lemma {:induction false} SubsequenceOfLonger(a: seq<string>, x: string, b: seq<string>)
    requires IsSubsequence(a, b)
    ensures IsSubsequence(a, [x] + b)
    decreases |b|, 1
  {
    assert ([x] + b)[1..] == b;
    if a != [] && a[0] == x {
      SubsequenceTail(a, b);
    }
  }

  /** Dropping the head of a subsequence leaves a subsequence. */
  lemma {:induction false} SubsequenceTail(a: seq<string>, b: seq<string>)
    requires a != [] && IsSubsequence(a, b)
    ensures IsSubsequence(a[1..], b)
    decreases |b|, 0
  {
    assert b == [b[0]] + b[1..];
    if a[0] == b[0] {
      SubsequenceOfLonger(a[1..], b[0], b[1..]);
    } else {
      SubsequenceTail(a, b[1..]);
      SubsequenceOfLonger(a[1..], b[0], b[1..]);
    }
  }

  /** The missing columns are reported in the order of the required list. */
  lemma {:induction false} MissingInRequiredOrder(required: seq<string>, columns: seq<string>)
    ensures IsSubsequence(Missing(required, columns), required)
  {
    if required != [] {
      var rest := Missing(required[1..], columns);
      MissingInRequiredOrder(required[1..], columns);
      assert required == [required[0]] + required[1..];
      if required[0] in columns {
        assert Missing(required, columns) == rest;
        SubsequenceOfLonger(rest, required[0], required[1..]);
      } else {
        assert Missing(required, columns) == [required[0]] + rest;
        assert ([required[0]] + rest)[1..] == rest;
      }
    }
  }

  /** A required list without repeats reports each missing column once. */
  lemma {:induction false} MissingHasNoRepeats(required: seq<string>, columns: seq<string>)
    requires forall i, j :: 0 <= i < j < |required| ==> required[i] != required[j]
    ensures forall i, j :: 0 <= i < j < |Missing(required, columns)| ==>
              Missing(required, columns)[i] != Missing(required, columns)[j]
  {
    if required != [] {
      var rest := Missing(required[1..], columns);
      MissingHasNoRepeats(required[1..], columns);
      assert required[0] !in required[1..] by {
        forall k | 0 <= k < |required[1..]| ensures required[1..][k] != required[0] {
          assert required[1..][k] == required[k + 1];
        }
      }
      assert required[0] !in rest;
    }
  }

  /** The outcome of the check: the table is accepted, or the missing names are reported. */
  function CheckColumns(columns: seq<string>): (r: Result<seq<string>, seq<string>>)
    ensures r.Ok? <==> forall c :: c in RequiredColumns ==> c in columns
    ensures r.Ok? ==> r.value == columns
    ensures r.Err? ==> r.error != [] && r.error == Missing(RequiredColumns, columns)
  {
    var missing := Missing(RequiredColumns, columns);
    if missing == [] then Ok(columns)
    else
      assert missing[0] in missing;
      Err(missing)
  }

  /** A table with exactly the required columns is accepted. */
  lemma SampleColumnsAccepted()
    ensures CheckColumns(RequiredColumns).Ok?
  {
  }

  /** When no column is present, every required one is reported, in order. */
  lemma {:induction false} NothingPresentReportsAll(required: seq<string>)
    ensures Missing(required, []) == required
  {
    if required != [] {
      NothingPresentReportsAll(required[1..]);
      assert required == [required[0]] + required[1..];
    }
  }

  /** A table with none of the columns is rejected with the whole required list. */
  lemma EmptyTableReportsAll()
    ensures CheckColumns([]) == Err(RequiredColumns)
  {
    NothingPresentReportsAll(RequiredColumns);
  }
}
