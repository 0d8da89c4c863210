// The data store: the active dataset's Data DNA and the actions that edit
// it. Every action is a pure next-state function; `Date.now()` is `now`.
module DataStore {
  import opened Wrappers
  import opened Json
  import Text

  /** The Data DNA as the store sees it: the three parts its actions edit,
    * and everything else (metadata, health, columns, …) as one value the
    * actions carry along untouched. */
  datatype Dna = Dna(baselines: Obj, patterns: seq<string>, insights: seq<string>, rest: Json)

  datatype State = State(activeDatasetId: Option<string>, dataDNA: Option<Dna>)

  const Initial := State(None, None)

  function DatasetId(now: nat): string
  {
    "dataset_" + Text.NatToString(now)
  }

  /** setDataDNA: the DNA is stored under a fresh dataset id. */
  function SetDataDNA(st: State, dna: Dna, now: nat): (r: State)
    ensures r.dataDNA == Some(dna) && r.activeDatasetId == Some(DatasetId(now))
  {
    State(Some(DatasetId(now)), Some(dna))
  }

  /** clearDataDNA: no dataset, no DNA. */
  function ClearDataDNA(st: State): (r: State)
    ensures r.dataDNA.None? && r.activeDatasetId.None?
  {
    State(None, None)
  }

  /** updateBaselines: `{ ...baselines, ...updates }` into the DNA, if any. */
  function UpdateBaselines(st: State, updates: Obj): (r: State)
    ensures r.activeDatasetId == st.activeDatasetId
    ensures st.dataDNA.None? ==> r == st
    ensures st.dataDNA.Some? ==> r.dataDNA == Some(st.dataDNA.value.(baselines := Merge(st.dataDNA.value.baselines, updates)))
  {
    match st.dataDNA
    case None => st
    case Some(dna) => st.(dataDNA := Some(dna.(baselines := Merge(dna.baselines, updates))))
  }

  /** The merge is right-biased: an updated key reads as in the update, every
    * other key as before. */
  lemma UpdateBaselinesLookup(st: State, updates: Obj, k: string)
    requires st.dataDNA.Some?
    ensures Lookup(UpdateBaselines(st, updates).dataDNA.value.baselines, k)
            == if Lookup(updates, k).Some? then Lookup(updates, k) else Lookup(st.dataDNA.value.baselines, k)
  {
    LookupMerge(st.dataDNA.value.baselines, updates, k);
  }

  /** An empty update changes nothing. */
  lemma UpdateBaselinesEmpty(st: State)
    ensures UpdateBaselines(st, []) == st
  {
  }

  /** addPattern: one pattern at the end of the list, if there is a DNA. */
  function AddPattern(st: State, pattern: string): (r: State)
    ensures r.activeDatasetId == st.activeDatasetId
    ensures st.dataDNA.None? ==> r == st
    ensures st.dataDNA.Some? ==> r.dataDNA == Some(st.dataDNA.value.(patterns := st.dataDNA.value.patterns + [pattern]))
  {
    match st.dataDNA
    case None => st
    case Some(dna) => st.(dataDNA := Some(dna.(patterns := dna.patterns + [pattern])))
  }

  /** addInsight: one insight at the end of the list, if there is a DNA. */
  function AddInsight(st: State, insight: string): (r: State)
    ensures r.activeDatasetId == st.activeDatasetId
    ensures st.dataDNA.None? ==> r == st
    ensures st.dataDNA.Some? ==> r.dataDNA == Some(st.dataDNA.value.(insights := st.dataDNA.value.insights + [insight]))
  {
    match st.dataDNA
    case None => st
    case Some(dna) => st.(dataDNA := Some(dna.(insights := dna.insights + [insight])))
  }

  /** The two lists are independent: adding to one never touches the other,
    * so the additions commute, and they keep the baselines. */
  lemma AddsCommute(st: State, pattern: string, insight: string)
    ensures AddPattern(AddInsight(st, insight), pattern) == AddInsight(AddPattern(st, pattern), insight)
    ensures st.dataDNA.Some? ==>
              && AddPattern(st, pattern).dataDNA.value.insights == st.dataDNA.value.insights
              && AddInsight(st, insight).dataDNA.value.patterns == st.dataDNA.value.patterns
              && AddPattern(st, pattern).dataDNA.value.baselines == st.dataDNA.value.baselines
  {
  }

  /** Patterns added one after another appear in the order they were added. */
  function AddPatterns(st: State, ps: seq<string>): State
  {
    if ps == [] then st else AddPattern(AddPatterns(st, ps[..|ps| - 1]), ps[|ps| - 1])
  }

  lemma {:induction false} AddPatternsAppend(st: State, ps: seq<string>)
    requires st.dataDNA.Some?
    ensures AddPatterns(st, ps).dataDNA.Some?
    ensures AddPatterns(st, ps).dataDNA.value.patterns == st.dataDNA.value.patterns + ps
    ensures AddPatterns(st, ps).dataDNA.value.insights == st.dataDNA.value.insights
  {
    if ps != [] {
      var init := ps[..|ps| - 1];
      AddPatternsAppend(st, init);
      assert init + [ps[|ps| - 1]] == ps;
    }
  }

  /** With no DNA every edit is ignored: a cleared store stays cleared. */
  lemma ClearedIgnoresEdits(st: State, updates: Obj, pattern: string, insight: string)
    ensures var c := ClearDataDNA(st);
            UpdateBaselines(c, updates) == c && AddPattern(c, pattern) == c && AddInsight(c, insight) == c
  {
  }
}
