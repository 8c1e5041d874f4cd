/** The aggregation-pipeline stage editor: two index-aligned lists (what the
    user typed per stage, and the result panel per stage), a sample count, and
    one handler per control. Queries are not run here: Refresh returns the
    calls it issues to the external aggregate function, in order. */
module AggregateTab {
  import opened Types
  import opened ArrayOps

  /** The operations offered by the stage-operation dropdown, as listed in the source. */
  const AggregateOperations: seq<string> := [
    "$addFields", "$bucket", "$bucketAuto", "$collStats", "$count", "$documents",
    "$facet", "$geoNear", "$graphLookup", "$group", "$indexStats", "$limit",
    "$lookup", "$match", "$merge", "$out", "$project", "$redact", "$replaceWidth",
    "$replaceRoot", "$sample", "$search", "$searchMeta", "$set", "$skip", "$sort",
    "$sortByCount", "$unionWidth", "$unset", "$unwind"
  ]

  /** The stage that "Add stage" and "+" create. */
  const DefaultStageInput: StageInput := StageInput(false, "$match", "{}")

  /** The result panel that "Add stage" and "+" create. */
  const DefaultStageOutput: StageOutput := StageOutput(false, [], None)

  /** The argument of one call to the external aggregate function. */
  datatype AggregateRequest = AggregateRequest(
    idx: nat,
    sampleCount: nat,
    databaseName: Option<string>,
    collectionName: Option<string>,
    stages: seq<StageInput>)

  /** Some stage is waiting for its query: the sample count and Refresh are disabled. */
  predicate AnyLoading(outputs: seq<StageOutput>)
  {
    exists i :: 0 <= i < |outputs| && outputs[i].loading
  }

  /** The row's own loading flag, which disables its Collapse and Delete buttons.
      A row without a result panel reads as not loading. */
  predicate RowLoading(outputs: seq<StageOutput>, rowIdx: nat)
  {
    rowIdx < |outputs| && outputs[rowIdx].loading
  }

  /** The stored sample count: the larger of 0 and the integer typed in. */
  function ClampSampleCount(n: int): (r: nat)
    ensures r >= n
    ensures r == n || r == 0
  {
    if n < 0 then 0 else n
  }

  /** Delete: keeps every entry whose index is not rowIdx, in order. */
  function DeleteRow<T>(s: seq<T>, rowIdx: nat): (r: seq<T>)
    ensures rowIdx < |s| ==> r == s[..rowIdx] + s[rowIdx + 1..]
    ensures rowIdx < |s| ==> |r| == |s| - 1
    ensures rowIdx < |s| ==> forall i :: 0 <= i < rowIdx ==> r[i] == s[i]
    ensures rowIdx < |s| ==> forall i :: rowIdx <= i < |r| ==> r[i] == s[i + 1]
    ensures rowIdx >= |s| ==> r == s
  {
    var keep := (idx: nat) => idx != rowIdx;
    FilterDropsIndex(s, keep, rowIdx);
    FilterByIndex(s, keep)
  }

  /** "+": the rows up to rowIdx, then x, then the rows after rowIdx. */
  function InsertAfter<T>(s: seq<T>, rowIdx: nat, x: T): (r: seq<T>)
    ensures r == s[..Min(rowIdx + 1, |s|)] + [x] + s[Min(rowIdx + 1, |s|)..]
    ensures |r| == |s| + 1
    ensures rowIdx < |s| ==> r[rowIdx + 1] == x
    ensures rowIdx < |s| ==> forall i :: 0 <= i <= rowIdx ==> r[i] == s[i]
    ensures rowIdx < |s| ==> forall i :: rowIdx < i < |s| ==> r[i + 1] == s[i]
    ensures rowIdx >= |s| ==> r == s + [x]
  {
    var atOrBefore := (idx: nat) => idx <= rowIdx;
    var after := (idx: nat) => idx > rowIdx;
    FilterKeepsPrefix(s, atOrBefore, rowIdx);
    FilterDropsPrefix(s, after, rowIdx);
    FilterByIndex(s, atOrBefore) + [x] + FilterByIndex(s, after)
  }

  /** The rows of the two lists side by side: row i pairs input i with output i. */
  function Rows<A, B>(a: seq<A>, b: seq<B>): (r: seq<(A, B)>)
    requires |a| == |b|
    ensures |r| == |a|
    ensures forall i :: 0 <= i < |a| ==> r[i] == (a[i], b[i])
  {
    seq(|a|, i requires 0 <= i < |a| => (a[i], b[i]))
  }

  /** Deleting the same index from both lists deletes that row, keeping every other row paired. */
  lemma DeleteRowKeepsRowsPaired<A, B>(a: seq<A>, b: seq<B>, rowIdx: nat)
    requires |a| == |b|
    ensures |DeleteRow(a, rowIdx)| == |DeleteRow(b, rowIdx)|
    ensures Rows(DeleteRow(a, rowIdx), DeleteRow(b, rowIdx)) == DeleteRow(Rows(a, b), rowIdx)
  {
    var ra, rb, rr := DeleteRow(a, rowIdx), DeleteRow(b, rowIdx), DeleteRow(Rows(a, b), rowIdx);
    if rowIdx < |a| {
      forall i | 0 <= i < |rr| ensures Rows(ra, rb)[i] == rr[i] {
        if i >= rowIdx {
          assert rr[i] == Rows(a, b)[i + 1];
        }
      }
    }
  }

  /** Inserting after the same index in both lists inserts one new row, keeping every other row paired. */
  lemma InsertAfterKeepsRowsPaired<A, B>(a: seq<A>, b: seq<B>, rowIdx: nat, x: A, y: B)
    requires |a| == |b|
    ensures |InsertAfter(a, rowIdx, x)| == |InsertAfter(b, rowIdx, y)|
    ensures Rows(InsertAfter(a, rowIdx, x), InsertAfter(b, rowIdx, y)) == InsertAfter(Rows(a, b), rowIdx, (x, y))
  {
    var ra, rb, rr := InsertAfter(a, rowIdx, x), InsertAfter(b, rowIdx, y), InsertAfter(Rows(a, b), rowIdx, (x, y));
    var k := Min(rowIdx + 1, |a|);
    forall i | 0 <= i < |rr| ensures Rows(ra, rb)[i] == rr[i] {
      if i < k {
        assert ra[i] == a[i] && rb[i] == b[i] && rr[i] == Rows(a, b)[i];
      } else if i > k {
        assert ra[i] == a[i - 1] && rb[i] == b[i - 1] && rr[i] == Rows(a, b)[i - 1];
      }
    }
  }

  /** Appending to both lists appends one row. */
  lemma AppendKeepsRowsPaired<A, B>(a: seq<A>, b: seq<B>, x: A, y: B)
    requires |a| == |b|
    ensures Rows(a + [x], b + [y]) == Rows(a, b) + [(x, y)]
  {
  }

  /** Canonicalises a stage body: the parsed value printed back to text, or the
      text itself when it does not parse. Parsing and printing are supplied by the caller. */
  function CanonicalBody(text: string, parse: string -> Option<Json>, stringify: Json -> string): string
  {
    match parse(text)
    case Some(json) => stringify(json)
    case None => text
  }

  /** When printing a value that parsing produced and parsing that text again
      gives back the same value, canonicalising twice gives the same stored body
      as canonicalising once. */
  lemma CanonicalBodyIdempotent(text: string, parse: string -> Option<Json>, stringify: Json -> string)
    requires forall t, json :: parse(t) == Some(json) ==> parse(stringify(json)) == Some(json)
    ensures CanonicalBody(CanonicalBody(text, parse, stringify), parse, stringify)
         == CanonicalBody(text, parse, stringify)
  {
  }

  /** The state that useAggregateTabState creates and the handlers of the tab update. */
  class AggregateTabState {
    var stagesInput: seq<StageInput>
    var stagesOutput: seq<StageOutput>
    var sampleCount: nat

    /** The two lists have one entry per row. */
    ghost predicate Aligned()
      reads this
    {
      |stagesInput| == |stagesOutput|
    }

    /** Row i of the tab: input i with output i. */
    ghost function StageRows(): seq<(StageInput, StageOutput)>
      reads this
      requires Aligned()
    {
      Rows(stagesInput, stagesOutput)
    }

    /** One default stage with an empty result panel, and a sample count of 2. */
    constructor ()
      ensures stagesInput == [DefaultStageInput]
      ensures stagesOutput == [DefaultStageOutput]
      ensures sampleCount == 2
      ensures Aligned()
    {
      stagesInput := [DefaultStageInput];
      stagesOutput := [DefaultStageOutput];
      sampleCount := 2;
    }

    /** The sample-count input; it is disabled while any stage is loading. */
    method SetSampleCount(n: int)
      modifies this
      ensures AnyLoading(stagesOutput) ==> sampleCount == old(sampleCount)
      ensures !AnyLoading(stagesOutput) ==> sampleCount == ClampSampleCount(n)
      ensures stagesInput == old(stagesInput) && stagesOutput == old(stagesOutput)
    {
      if !AnyLoading(stagesOutput) {
        sampleCount := ClampSampleCount(n);
      }
    }

    /** Refresh: one aggregate call per stage, call idx carrying the stages
        0..idx. The button is disabled, and nothing is issued, while a stage is loading. */
    method Refresh(databaseName: Option<string>, collectionName: Option<string>)
      returns (calls: seq<AggregateRequest>)
      ensures AnyLoading(stagesOutput) ==> calls == []
      ensures !AnyLoading(stagesOutput) ==> |calls| == |stagesInput|
      ensures !AnyLoading(stagesOutput) ==>
        forall idx :: 0 <= idx < |calls| ==>
          calls[idx] == AggregateRequest(idx, sampleCount, databaseName, collectionName, stagesInput[..idx + 1])
    {
      calls := [];
      if AnyLoading(stagesOutput) {
        return;
      }
      // First loop: the prefix of the stages that ends at each index.
      var prefixes: seq<seq<StageInput>> := [];
      var idx := 0;
      while idx < |stagesInput|
        invariant 0 <= idx <= |stagesInput|
        invariant |prefixes| == idx
        invariant forall k :: 0 <= k < idx ==> prefixes[k] == stagesInput[..k + 1]
      {
        var keep := (idx2: nat) => idx2 <= idx;
        FilterKeepsPrefix(stagesInput, keep, idx);
        prefixes := prefixes + [FilterByIndex(stagesInput, keep)];
        idx := idx + 1;
      }
      // Second loop: one call per prefix, in index order.
      idx := 0;
      while idx < |prefixes|
        invariant 0 <= idx <= |prefixes|
        invariant |calls| == idx
        invariant forall k :: 0 <= k < idx ==>
          calls[k] == AggregateRequest(k, sampleCount, databaseName, collectionName, prefixes[k])
      {
        calls := calls + [AggregateRequest(idx, sampleCount, databaseName, collectionName, prefixes[idx])];
        idx := idx + 1;
      }
    }

    /** Collapse / Expand of row rowIdx, disabled while that row is loading:
        flips the row's collapsed flag and nothing else. */
    method ToggleCollapsed(rowIdx: nat)
      requires rowIdx < |stagesInput|
      modifies this
      ensures |stagesInput| == |old(stagesInput)|
      ensures RowLoading(stagesOutput, rowIdx) ==> stagesInput == old(stagesInput)
      ensures !RowLoading(stagesOutput, rowIdx) ==>
        stagesInput[rowIdx] == old(stagesInput[rowIdx]).(collapsed := !old(stagesInput[rowIdx].collapsed))
      ensures forall i :: 0 <= i < |stagesInput| && i != rowIdx ==> stagesInput[i] == old(stagesInput[i])
      ensures stagesOutput == old(stagesOutput) && sampleCount == old(sampleCount)
    {
      if !RowLoading(stagesOutput, rowIdx) {
        var copy := stagesInput;
        copy := copy[rowIdx := copy[rowIdx].(collapsed := if copy[rowIdx].collapsed then false else true)];
        stagesInput := copy;
      }
    }

    /** Picking `name` in row rowIdx's operation dropdown: sets that row's
        operation and nothing else. */
    method PickOperation(rowIdx: nat, name: string)
      requires rowIdx < |stagesInput|
      requires name in AggregateOperations
      modifies this
      ensures |stagesInput| == |old(stagesInput)|
      ensures stagesInput[rowIdx] == old(stagesInput[rowIdx]).(stageOperation := name)
      ensures forall i :: 0 <= i < |stagesInput| && i != rowIdx ==> stagesInput[i] == old(stagesInput[i])
      ensures stagesOutput == old(stagesOutput) && sampleCount == old(sampleCount)
    {
      var copy := stagesInput;
      copy := copy[rowIdx := copy[rowIdx].(stageOperation := name)];
      stagesInput := copy;
    }

    /** Typing `text` in row rowIdx's body editor, which is shown only while the
        row is expanded: stores the canonical form when the text parses, the text
        verbatim when it does not, and changes nothing else. */
    method EditBody(rowIdx: nat, text: string, parse: string -> Option<Json>, stringify: Json -> string)
      requires rowIdx < |stagesInput|
      modifies this
      ensures |stagesInput| == |old(stagesInput)|
      ensures old(stagesInput[rowIdx].collapsed) ==> stagesInput == old(stagesInput)
      ensures !old(stagesInput[rowIdx].collapsed) ==>
        stagesInput[rowIdx] == old(stagesInput[rowIdx]).(stageBody := CanonicalBody(text, parse, stringify))
      ensures !old(stagesInput[rowIdx].collapsed) && parse(text).Some? ==>
        stagesInput[rowIdx].stageBody == stringify(parse(text).value)
      ensures !old(stagesInput[rowIdx].collapsed) && parse(text).None? ==>
        stagesInput[rowIdx].stageBody == text
      ensures forall i :: 0 <= i < |stagesInput| && i != rowIdx ==> stagesInput[i] == old(stagesInput[i])
      ensures stagesOutput == old(stagesOutput) && sampleCount == old(sampleCount)
    {
      if !stagesInput[rowIdx].collapsed {
        var copy := stagesInput;
        match parse(text) {
          case Some(json) => copy := copy[rowIdx := copy[rowIdx].(stageBody := stringify(json))];
          case None => copy := copy[rowIdx := copy[rowIdx].(stageBody := text)];
        }
        stagesInput := copy;
      }
    }

    /** Delete of row rowIdx, disabled while that row is loading: removes index
        rowIdx from both lists (an index a list does not have leaves it as it is). */
    method DeleteStage(rowIdx: nat)
      modifies this
      ensures RowLoading(old(stagesOutput), rowIdx) ==>
        stagesInput == old(stagesInput) && stagesOutput == old(stagesOutput)
      ensures !RowLoading(old(stagesOutput), rowIdx) ==>
        stagesInput == DeleteRow(old(stagesInput), rowIdx) && stagesOutput == DeleteRow(old(stagesOutput), rowIdx)
      ensures old(Aligned()) ==> Aligned()
      ensures old(Aligned()) && !RowLoading(old(stagesOutput), rowIdx) ==>
        StageRows() == DeleteRow(old(StageRows()), rowIdx)
      ensures sampleCount == old(sampleCount)
    {
      if !RowLoading(stagesOutput, rowIdx) {
        if |stagesInput| == |stagesOutput| {
          DeleteRowKeepsRowsPaired(stagesInput, stagesOutput, rowIdx);
        }
        stagesInput := DeleteRow(stagesInput, rowIdx);
        stagesOutput := DeleteRow(stagesOutput, rowIdx);
      }
    }

    /** "+" on row rowIdx: a default stage and an empty result panel right after that row. */
    method InsertStageAfter(rowIdx: nat)
      modifies this
      ensures stagesInput == InsertAfter(old(stagesInput), rowIdx, DefaultStageInput)
      ensures stagesOutput == InsertAfter(old(stagesOutput), rowIdx, DefaultStageOutput)
      ensures old(Aligned()) ==> Aligned()
      ensures old(Aligned()) ==>
        StageRows() == InsertAfter(old(StageRows()), rowIdx, (DefaultStageInput, DefaultStageOutput))
      ensures sampleCount == old(sampleCount)
    {
      if |stagesInput| == |stagesOutput| {
        InsertAfterKeepsRowsPaired(stagesInput, stagesOutput, rowIdx, DefaultStageInput, DefaultStageOutput);
      }
      stagesInput := InsertAfter(stagesInput, rowIdx, DefaultStageInput);
      stagesOutput := InsertAfter(stagesOutput, rowIdx, DefaultStageOutput);
    }

    /** "Add stage": a default stage and an empty result panel at the end. */
    method AddStage()
      modifies this
      ensures |stagesInput| == |old(stagesInput)| + 1 && |stagesOutput| == |old(stagesOutput)| + 1
      ensures stagesInput[..|old(stagesInput)|] == old(stagesInput)
      ensures stagesOutput[..|old(stagesOutput)|] == old(stagesOutput)
      ensures stagesInput[|old(stagesInput)|] == DefaultStageInput
      ensures stagesOutput[|old(stagesOutput)|] == DefaultStageOutput
      ensures old(Aligned()) ==> Aligned()
      ensures old(Aligned()) ==> StageRows() == old(StageRows()) + [(DefaultStageInput, DefaultStageOutput)]
      ensures sampleCount == old(sampleCount)
    {
      if |stagesInput| == |stagesOutput| {
        AppendKeepsRowsPaired(stagesInput, stagesOutput, DefaultStageInput, DefaultStageOutput);
      }
      stagesInput := stagesInput + [DefaultStageInput];
      stagesOutput := stagesOutput + [DefaultStageOutput];
    }
  }

  /** From the initial tab: a negative sample count is stored as 0; after
      "Add stage" and a sample count of 5, Refresh issues two calls, the first
      with one default stage and the second with two. */
  method AddStageThenRefresh(databaseName: Option<string>, collectionName: Option<string>)
    returns (calls: seq<AggregateRequest>)
    ensures calls == [
      AggregateRequest(0, 5, databaseName, collectionName, [DefaultStageInput]),
      AggregateRequest(1, 5, databaseName, collectionName, [DefaultStageInput, DefaultStageInput])]
  {
    var tab := new AggregateTabState();
    tab.SetSampleCount(-3);
    assert tab.sampleCount == 0;
    tab.AddStage();
    assert tab.stagesInput == [DefaultStageInput, DefaultStageInput];
    assert tab.stagesOutput == [DefaultStageOutput, DefaultStageOutput];
    tab.SetSampleCount(5);
    calls := tab.Refresh(databaseName, collectionName);
    assert tab.stagesInput[..1] == [DefaultStageInput];
    assert tab.stagesInput[..2] == [DefaultStageInput, DefaultStageInput];
  }
}
