/** How the exporter turns a profiling tree into X-Ray subsegments: one
    subsegment per timing, nested as the timings are; one `remote`
    subsegment per SQL custom timing, named after the database the listener
    tagged the command with; and the annotations recorded under the
    `xrayAnnotations` category attached to their timing's subsegment. */
module Converter {
  import opened Wrappers
  import opened Strings
  import opened Json
  import opened Profiling
  import Annotations
  import AnnotationRoundTrip
  import opened XRay

  const SqlCategory: string := "sql"
  const RemoteNamespace: string := "remote"
  /** What the exporter looks for to decide that a command carries a tag. */
  const Marker: string := "/*XRAY"
  /** What it splits the command on: the tag starts on a line of its own. */
  const MarkerLine: string := "\n/*XRAY"
  /** What it removes from the tag to leave the subsegment name. */
  const MarkerClose: string := " */"

  /** The subsegment name and the sanitized query of a SQL timing. A command
      without the marker keeps its execute type as name and is its own query;
      a tagged command is split on the marker line: the text before it is the
      query, the text after it, less every closing comment mark, is the name. A command that
      holds the marker but not at the start of a line has no second part, and
      indexing it throws. */
  function SplitSql(command: string, executeType: string): Result<(string, string), Exception> {
    if !Contains(command, Marker) then Ok((executeType, command))
    else
      var parts := Split(command, MarkerLine);
      if |parts| < 2 then Err(IndexOutOfRangeException)
      else Ok((Replace(parts[1], MarkerClose, ""), parts[0]))
  }

  /** The commands `SplitSql` accepts: untagged, or tagged on a line of its own. */
  predicate SqlCommandOk(command: string) {
    Contains(command, Marker) ==> Contains(command, MarkerLine)
  }

  /** `SplitSql` succeeds exactly on the commands `SqlCommandOk` admits and
      otherwise throws `IndexOutOfRangeException`; an untagged command is
      passed through, and the query of a tagged one is the text before the
      first marker line. */
  lemma {:induction false} SplitSqlOk(command: string, executeType: string)
    ensures SplitSql(command, executeType).Ok? <==> SqlCommandOk(command)
    ensures SplitSql(command, executeType).Err? ==> SplitSql(command, executeType).error == IndexOutOfRangeException
    ensures !Contains(command, Marker) ==> SplitSql(command, executeType) == Ok((executeType, command))
    ensures SplitSql(command, executeType).Ok? && Contains(command, Marker) ==>
      var query := SplitSql(command, executeType).value.1;
      && OccursAt(command, MarkerLine, |query|) && command[..|query|] == query
      && (forall j :: j < |query| ==> !OccursAt(command, MarkerLine, j))
  {
    SplitFirst(command, MarkerLine);
  }

  /** The subsegment for one SQL custom timing. */
  function SqlSubsegment(base: real, t: CustomTimingData): Result<Subsegment, Exception> {
    var (name, query) :- SplitSql(t.commandString, t.executeType);
    var start := base + t.startMs / 1000.0;
    Ok(Subsegment(name, start, EndTime(start, t.durationMs), Some(RemoteNamespace), Some(query), [], []))
  }

  lemma {:induction false} SqlSubsegmentOfSplit(base: real, t: CustomTimingData, name: string, query: string)
    requires SplitSql(t.commandString, t.executeType) == Ok((name, query))
    ensures var start := base + t.startMs / 1000.0;
      SqlSubsegment(base, t) == Ok(Subsegment(name, start, EndTime(start, t.durationMs), Some(RemoteNamespace), Some(query), [], []))
  {
  }

  /** The subsegments for the SQL timings `ts`, in order; the first failure
      stops the conversion. */
  function SqlSubsegments(base: real, ts: seq<CustomTimingData>): Result<seq<Subsegment>, Exception>
    decreases |ts|
  {
    if ts == [] then Ok([])
    else
      var prev :- SqlSubsegments(base, ts[..|ts| - 1]);
      var sub :- SqlSubsegment(base, ts[|ts| - 1]);
      Ok(prev + [sub])
  }

  /** The annotations of the annotation timings `ts`, in order. A command
      string that does not decode contributes none (the exporter swallows
      the exception). */
  function TimingAnnotations(ts: seq<CustomTimingData>): seq<(string, Value)>
    decreases |ts|
  {
    if ts == [] then []
    else TimingAnnotations(ts[..|ts| - 1]) + Annotations.DecodeAnnotations(ts[|ts| - 1].commandString)
  }

  /** The SQL subsegments and the annotations of a timing's custom timings,
      category by category; other categories are ignored. */
  function CategoryItems(base: real, cats: seq<(string, seq<CustomTimingData>)>): Result<(seq<Subsegment>, seq<(string, Value)>), Exception>
    decreases |cats|
  {
    if cats == [] then Ok(([], []))
    else
      var (subs, notes) :- CategoryItems(base, cats[..|cats| - 1]);
      var (category, ts) := cats[|cats| - 1];
      if category == SqlCategory then
        var more :- SqlSubsegments(base, ts);
        Ok((subs + more, notes))
      else if category == Annotations.Category then
        Ok((subs, notes + TimingAnnotations(ts)))
      else
        Ok((subs, notes))
  }

  /** The subsegment for `node`; `base` is the start of the trace, which
      every start offset is measured from. The children's subsegments come
      first, then the SQL subsegments. */
  function ConvertNode(node: Timing, base: real): Result<Subsegment, Exception>
    decreases node, |node.children| + 1
  {
    var kids :- ConvertChildren(node, base, |node.children|);
    var (sqlSubs, notes) :- CategoryItems(base, node.customTimings);
    var start := base + node.startMs / 1000.0;
    Ok(Subsegment(node.name, start, EndTime(start, node.durationMs), None, None, notes, kids + sqlSubs))
  }

  /** The subsegments of the first `n` children of `node`. */
  function ConvertChildren(node: Timing, base: real, n: nat): Result<seq<Subsegment>, Exception>
    requires n <= |node.children|
    decreases node, n
  {
    if n == 0 then Ok([])
    else
      var prev :- ConvertChildren(node, base, n - 1);
      var sub :- ConvertNode(node.children[n - 1], base);
      Ok(prev + [sub])
  }

  // ---------------------------------------------------------------------
  // Which trees convert

  /** The SQL timings among `cats` all have commands `SplitSql` accepts. */
  predicate SqlOk(cats: seq<(string, seq<CustomTimingData>)>) {
    forall c, j :: 0 <= c < |cats| && cats[c].0 == SqlCategory && 0 <= j < |cats[c].1| ==>
      SqlCommandOk(cats[c].1[j].commandString)
  }

  /** Every SQL timing in the tree under `node` has a command `SplitSql` accepts. */
  predicate TreeOk(node: Timing)
    decreases node
  {
    && (forall i :: 0 <= i < |node.children| ==> TreeOk(node.children[i]))
    && SqlOk(node.customTimings)
  }

  lemma {:induction false} SqlSubsegmentsOk(base: real, ts: seq<CustomTimingData>)
    ensures SqlSubsegments(base, ts).Ok? <==> forall j :: 0 <= j < |ts| ==> SqlCommandOk(ts[j].commandString)
    ensures SqlSubsegments(base, ts).Err? ==> SqlSubsegments(base, ts).error == IndexOutOfRangeException
    decreases |ts|
  {
    if ts != [] {
      var init := ts[..|ts| - 1];
      SqlSubsegmentsOk(base, init);
      SplitSqlOk(ts[|ts| - 1].commandString, ts[|ts| - 1].executeType);
      assert forall j :: 0 <= j < |init| ==> init[j] == ts[j];
    }
  }

  lemma {:induction false} CategoryItemsOk(base: real, cats: seq<(string, seq<CustomTimingData>)>)
    ensures CategoryItems(base, cats).Ok? <==> SqlOk(cats)
    ensures CategoryItems(base, cats).Err? ==> CategoryItems(base, cats).error == IndexOutOfRangeException
    decreases |cats|
  {
    if cats != [] {
      var init := cats[..|cats| - 1];
      var last := cats[|cats| - 1];
      CategoryItemsOk(base, init);
      SqlSubsegmentsOk(base, last.1);
      assert forall c :: 0 <= c < |init| ==> init[c] == cats[c];
      if SqlOk(init) && (last.0 == SqlCategory ==> forall j :: 0 <= j < |last.1| ==> SqlCommandOk(last.1[j].commandString)) {
        forall c, j | 0 <= c < |cats| && cats[c].0 == SqlCategory && 0 <= j < |cats[c].1|
          ensures SqlCommandOk(cats[c].1[j].commandString)
        {
          if c < |init| {
            assert cats[c] == init[c];
          }
        }
      }
    }
  }

  /** A tree converts exactly when `TreeOk` holds of it; otherwise the
      export throws `IndexOutOfRangeException`. */
  lemma {:induction false} ConvertNodeOk(node: Timing, base: real)
    ensures ConvertNode(node, base).Ok? <==> TreeOk(node)
    ensures ConvertNode(node, base).Err? ==> ConvertNode(node, base).error == IndexOutOfRangeException
    decreases node, |node.children| + 1
  {
    ConvertChildrenOk(node, base, |node.children|);
    CategoryItemsOk(base, node.customTimings);
  }

  lemma {:induction false} ConvertChildrenOk(node: Timing, base: real, n: nat)
    requires n <= |node.children|
    ensures ConvertChildren(node, base, n).Ok? <==> forall i :: 0 <= i < n ==> TreeOk(node.children[i])
    ensures ConvertChildren(node, base, n).Err? ==> ConvertChildren(node, base, n).error == IndexOutOfRangeException
    decreases node, n
  {
    if n > 0 {
      ConvertChildrenOk(node, base, n - 1);
      ConvertNodeOk(node.children[n - 1], base);
    }
  }

  // ---------------------------------------------------------------------
  // The shape of a converted tree

  lemma {:induction false} ConvertChildrenShape(node: Timing, base: real, n: nat)
    requires n <= |node.children|
    requires ConvertChildren(node, base, n).Ok?
    ensures var kids := ConvertChildren(node, base, n).value;
      && |kids| == n
      && (forall i :: 0 <= i < n ==> ConvertNode(node.children[i], base) == Ok(kids[i]))
    decreases n
  {
    if n > 0 {
      ConvertChildrenShape(node, base, n - 1);
    }
  }

  /** The SQL subsegments: one per SQL timing, each a `remote` subsegment
      with a query and no nested subsegments or annotations, timed like its
      timing. */
  lemma {:induction false} SqlSubsegmentsShape(base: real, ts: seq<CustomTimingData>)
    requires SqlSubsegments(base, ts).Ok?
    ensures var subs := SqlSubsegments(base, ts).value;
      && |subs| == |ts|
      && (forall k :: 0 <= k < |subs| ==> SqlTimed(base, ts[k], subs[k]))
    decreases |ts|
  {
    if ts != [] {
      var init := ts[..|ts| - 1];
      var prev := SqlSubsegments(base, init).value;
      var sub := SqlSubsegment(base, ts[|ts| - 1]).value;
      SqlSubsegmentsShape(base, init);
      assert SqlSubsegments(base, ts).value == prev + [sub];
      forall k | 0 <= k < |ts|
        ensures SqlTimed(base, ts[k], (prev + [sub])[k])
      {
        if k < |init| {
          assert init[k] == ts[k];
        }
      }
    }
  }

  /** `s` is the `remote` subsegment of the SQL timing `t`: its name and
      query are the split of the timing's command, and it is timed like the
      timing, from the trace start. */
  predicate SqlTimed(base: real, t: CustomTimingData, s: Subsegment) {
    && SqlSubsegment(base, t) == Ok(s)
    && IsSqlSubsegment(s)
    && SplitSql(t.commandString, t.executeType) == Ok((s.name, s.sanitizedQuery.value))
    && s.startTime == base + t.startMs / 1000.0
    && s.endTime == EndTime(s.startTime, t.durationMs)
  }

  predicate IsSqlSubsegment(s: Subsegment) {
    s.namespace == Some(RemoteNamespace) && s.sanitizedQuery.Some? && s.subsegments == [] && s.annotations == []
  }

  /** The number of SQL timings among `cats`. */
  function SqlCount(cats: seq<(string, seq<CustomTimingData>)>): nat
    decreases |cats|
  {
    if cats == [] then 0
    else SqlCount(cats[..|cats| - 1]) + (if cats[|cats| - 1].0 == SqlCategory then |cats[|cats| - 1].1| else 0)
  }

  /** The SQL timings among `cats`, in order. */
  function SqlTimingsIn(cats: seq<(string, seq<CustomTimingData>)>): (ts: seq<CustomTimingData>)
    ensures |ts| == SqlCount(cats)
    decreases |cats|
  {
    if cats == [] then []
    else SqlTimingsIn(cats[..|cats| - 1]) + (if cats[|cats| - 1].0 == SqlCategory then cats[|cats| - 1].1 else [])
  }

  /** A node's custom timings yield one `remote` subsegment per SQL timing,
      in order, each the subsegment of its timing. */
  lemma {:induction false} CategoryItemsShape(base: real, cats: seq<(string, seq<CustomTimingData>)>)
    requires CategoryItems(base, cats).Ok?
    ensures var subs := CategoryItems(base, cats).value.0;
      && |subs| == SqlCount(cats)
      && (forall k :: 0 <= k < |subs| ==> IsSqlSubsegment(subs[k]))
      && (forall k :: 0 <= k < |subs| ==> SqlTimed(base, SqlTimingsIn(cats)[k], subs[k]))
    decreases |cats|
  {
    if cats != [] {
      var init := cats[..|cats| - 1];
      var (category, ts) := cats[|cats| - 1];
      CategoryItemsShape(base, init);
      var prev := CategoryItems(base, init).value.0;
      var before := SqlTimingsIn(init);
      if category == SqlCategory {
        var more := SqlSubsegments(base, ts).value;
        SqlSubsegmentsShape(base, ts);
        assert CategoryItems(base, cats).value.0 == prev + more;
        assert SqlTimingsIn(cats) == before + ts;
        forall k | 0 <= k < |prev + more|
          ensures SqlTimed(base, (before + ts)[k], (prev + more)[k])
        {
          if k < |prev| {
            assert (before + ts)[k] == before[k];
          } else {
            assert (before + ts)[k] == ts[k - |prev|];
          }
        }
      } else {
        assert SqlTimingsIn(cats) == before + [];
      }
    }
  }

  /** The annotation timings among `cats`, in order. */
  function AnnotationTimingsIn(cats: seq<(string, seq<CustomTimingData>)>): seq<CustomTimingData>
    decreases |cats|
  {
    if cats == [] then []
    else AnnotationTimingsIn(cats[..|cats| - 1])
         + (if cats[|cats| - 1].0 == Annotations.Category then cats[|cats| - 1].1 else [])
  }

  /** The annotations a node's custom timings yield are those decoded from
      its annotation timings, in order, whatever the other categories hold. */
  lemma {:induction false} CategoryNotes(base: real, cats: seq<(string, seq<CustomTimingData>)>)
    requires CategoryItems(base, cats).Ok?
    ensures CategoryItems(base, cats).value.1 == TimingAnnotations(AnnotationTimingsIn(cats))
    decreases |cats|
  {
    if cats == [] {
      assert TimingAnnotations([]) == [];
    } else {
      var init := cats[..|cats| - 1];
      var (category, ts) := cats[|cats| - 1];
      CategoryNotes(base, init);
      if category == Annotations.Category {
        TimingAnnotationsAppend(AnnotationTimingsIn(init), ts);
      } else {
        assert AnnotationTimingsIn(cats) == AnnotationTimingsIn(init) + [];
        assert AnnotationTimingsIn(init) + [] == AnnotationTimingsIn(init);
      }
    }
  }

  /** A converted timing keeps its name, starts at the trace start plus its
      offset, ends after its duration if that is known, carries the
      annotations of its annotation timings, and holds first its children's
      subsegments in order and then the subsegment of each SQL timing, in
      order. */
  lemma {:induction false} ConvertNodeShape(node: Timing, base: real)
    requires ConvertNode(node, base).Ok?
    ensures var r := ConvertNode(node, base).value;
      && r.name == node.name
      && r.startTime == base + node.startMs / 1000.0
      && r.endTime == EndTime(r.startTime, node.durationMs)
      && r.namespace.None? && r.sanitizedQuery.None?
      && r.annotations == TimingAnnotations(AnnotationTimingsIn(node.customTimings))
      && |r.subsegments| == |node.children| + SqlCount(node.customTimings)
      && (forall i :: 0 <= i < |node.children| ==> ConvertNode(node.children[i], base) == Ok(r.subsegments[i]))
      && (forall k :: |node.children| <= k < |r.subsegments| ==>
            SqlTimed(base, SqlTimingsIn(node.customTimings)[k - |node.children|], r.subsegments[k]))
  {
    var r := ConvertNode(node, base).value;
    var kids := ConvertChildren(node, base, |node.children|).value;
    var sqlSubs := CategoryItems(base, node.customTimings).value.0;
    var ts := SqlTimingsIn(node.customTimings);
    assert r.subsegments == kids + sqlSubs;
    ConvertChildrenShape(node, base, |node.children|);
    CategoryItemsShape(base, node.customTimings);
    CategoryNotes(base, node.customTimings);
    forall k | |node.children| <= k < |r.subsegments|
      ensures SqlTimed(base, ts[k - |node.children|], r.subsegments[k])
    {
      assert r.subsegments[k] == sqlSubs[k - |node.children|];
    }
  }

  // ---------------------------------------------------------------------
  // Nothing lost, nothing added: every timing and every SQL timing of the
  // tree becomes exactly one subsegment.

  /** The number of timings under `node` (itself included) plus the number of
      SQL timings they hold. */
  function TimingCount(node: Timing): nat
    decreases node, |node.children| + 1
  {
    1 + ChildrenTimingCount(node, |node.children|) + SqlCount(node.customTimings)
  }

  function ChildrenTimingCount(node: Timing, n: nat): nat
    requires n <= |node.children|
    decreases node, n
  {
    if n == 0 then 0 else ChildrenTimingCount(node, n - 1) + TimingCount(node.children[n - 1])
  }

  /** The number of subsegments in the tree under `s`, itself included. */
  function SubsegmentCount(s: Subsegment): nat
    decreases s, |s.subsegments| + 1
  {
    1 + NestedCount(s, |s.subsegments|)
  }

  function NestedCount(s: Subsegment, n: nat): nat
    requires n <= |s.subsegments|
    decreases s, n
  {
    if n == 0 then 0 else NestedCount(s, n - 1) + SubsegmentCount(s.subsegments[n - 1])
  }

  /** The count of a sequence of subsegments, walking the same prefixes as
      `NestedCount`. */
  function ListCount(ss: seq<Subsegment>): nat
    decreases |ss|
  {
    if ss == [] then 0 else ListCount(ss[..|ss| - 1]) + SubsegmentCount(ss[|ss| - 1])
  }

  lemma {:induction false} NestedIsListCount(s: Subsegment, n: nat)
    requires n <= |s.subsegments|
    ensures NestedCount(s, n) == ListCount(s.subsegments[..n])
    decreases n
  {
    if n > 0 {
      NestedIsListCount(s, n - 1);
      assert s.subsegments[..n][..n - 1] == s.subsegments[..n - 1];
    }
  }

  lemma {:induction false} ListCountAppend(a: seq<Subsegment>, b: seq<Subsegment>)
    ensures ListCount(a + b) == ListCount(a) + ListCount(b)
    decreases |b|
  {
    if b == [] {
      assert a + b == a;
    } else {
      var init := b[..|b| - 1];
      ListCountAppend(a, init);
      assert (a + b)[..|a + b| - 1] == a + init;
      assert (a + b)[|a + b| - 1] == b[|b| - 1];
    }
  }

  lemma {:induction false} SqlListCount(ss: seq<Subsegment>)
    requires forall k :: 0 <= k < |ss| ==> IsSqlSubsegment(ss[k])
    ensures ListCount(ss) == |ss|
    decreases |ss|
  {
    if ss != [] {
      var last := ss[|ss| - 1];
      assert IsSqlSubsegment(last);
      assert NestedCount(last, 0) == 0;
      SqlListCount(ss[..|ss| - 1]);
    }
  }

  /** A converted tree has exactly one subsegment per timing and one per SQL
      timing. */
  lemma {:induction false} ConvertNodeCount(node: Timing, base: real)
    requires ConvertNode(node, base).Ok?
    ensures SubsegmentCount(ConvertNode(node, base).value) == TimingCount(node)
    decreases node, |node.children| + 1
  {
    var r := ConvertNode(node, base).value;
    var kids := ConvertChildren(node, base, |node.children|).value;
    var sqlSubs := CategoryItems(base, node.customTimings).value.0;
    assert r.subsegments == kids + sqlSubs;
    ConvertChildrenCount(node, base, |node.children|);
    CategoryItemsShape(base, node.customTimings);
    SqlListCount(sqlSubs);
    ListCountAppend(kids, sqlSubs);
    NestedIsListCount(r, |r.subsegments|);
    assert r.subsegments[..|r.subsegments|] == r.subsegments;
  }

  lemma {:induction false} ConvertChildrenCount(node: Timing, base: real, n: nat)
    requires n <= |node.children|
    requires ConvertChildren(node, base, n).Ok?
    ensures ListCount(ConvertChildren(node, base, n).value) == ChildrenTimingCount(node, n)
    decreases node, n
  {
    if n > 0 {
      var prev := ConvertChildren(node, base, n - 1).value;
      var sub := ConvertNode(node.children[n - 1], base).value;
      ConvertChildrenCount(node, base, n - 1);
      ConvertNodeCount(node.children[n - 1], base);
      assert (prev + [sub])[..|prev + [sub]| - 1] == prev;
    }
  }

  // ---------------------------------------------------------------------
  // Annotations written by `AddXRayAnnotation` come back on the subsegment

  /** A timing whose one custom timing is an annotation timing holding the
      annotations `pairs`, appended one by one, gets exactly those
      annotations, in order. */
  lemma {:induction false} AnnotationsReachSubsegment(node: Timing, base: real, t: CustomTimingData, pairs: seq<(string, Value)>)
    requires forall k :: 0 <= k < |pairs| ==> Annotations.PlainKey(pairs[k].0)
    requires t.commandString == Annotations.AppendAll(pairs)
    requires node.customTimings == [(Annotations.Category, [t])]
    requires ConvertNode(node, base).Ok?
    ensures ConvertNode(node, base).value.annotations == pairs
  {
    AnnotationRoundTrip.AppendDecodeRoundTrip(pairs);
    var cats := node.customTimings;
    assert cats[..0] == [];
    assert [t][..0] == [];
    assert TimingAnnotations([t]) == pairs;
    assert Annotations.Category != SqlCategory;
    assert CategoryItems(base, cats) == Ok(([], pairs));
  }

  /** Annotation timings are decoded one by one: the annotations of two runs
      of timings are those of the first followed by those of the second. */
  lemma {:induction false} TimingAnnotationsAppend(a: seq<CustomTimingData>, b: seq<CustomTimingData>)
    ensures TimingAnnotations(a + b) == TimingAnnotations(a) + TimingAnnotations(b)
    decreases |b|
  {
    if b == [] {
      assert a + b == a;
    } else {
      var init := b[..|b| - 1];
      var last := b[|b| - 1];
      assert a + b == (a + init) + [last];
      assert b == init + [last];
      TimingAnnotationsSnoc(a + init, last);
      TimingAnnotationsSnoc(init, last);
      TimingAnnotationsAppend(a, init);
      ConcatAssoc(TimingAnnotations(a), TimingAnnotations(init), TimingAnnotations([last]));
    }
  }

  lemma ConcatAssoc<T>(x: seq<T>, y: seq<T>, z: seq<T>)
    ensures (x + y) + z == x + (y + z)
  {
  }

  lemma {:induction false} TimingAnnotationsSnoc(a: seq<CustomTimingData>, t: CustomTimingData)
    ensures TimingAnnotations(a + [t]) == TimingAnnotations(a) + TimingAnnotations([t])
  {
    assert (a + [t])[..|a|] == a;
    assert [t][..0] == [];
  }

  /** An annotation timing whose text does not decode is skipped: the
      timings before and after it still contribute theirs. */
  lemma {:induction false} UndecodableEntrySkipped(ts: seq<CustomTimingData>, k: nat)
    requires k < |ts|
    requires DecodePairs("[" + ts[k].commandString + "]").None?
    ensures TimingAnnotations(ts) == TimingAnnotations(ts[..k]) + TimingAnnotations(ts[k + 1..])
  {
    var before, t, after := ts[..k], ts[k], ts[k + 1..];
    assert ts == before + [t] + after;
    TimingAnnotationsAppend(before + [t], after);
    TimingAnnotationsSnoc(before, t);
    assert [t][..0] == [];
    assert TimingAnnotations([t]) == [];
    assert TimingAnnotations(before) + [] == TimingAnnotations(before);
  }

  /** Categories are converted one by one: the first failure is the
      result, otherwise the SQL subsegments and the annotations of two runs
      of categories are those of the first followed by those of the second. */
  lemma {:induction false} CategoryItemsAppend(base: real, a: seq<(string, seq<CustomTimingData>)>, b: seq<(string, seq<CustomTimingData>)>)
    ensures CategoryItems(base, a).Err? ==> CategoryItems(base, a + b) == CategoryItems(base, a)
    ensures CategoryItems(base, a).Ok? && CategoryItems(base, b).Err? ==> CategoryItems(base, a + b) == CategoryItems(base, b)
    ensures CategoryItems(base, a).Ok? && CategoryItems(base, b).Ok? ==>
      var (s1, n1) := CategoryItems(base, a).value;
      var (s2, n2) := CategoryItems(base, b).value;
      CategoryItems(base, a + b) == Ok((s1 + s2, n1 + n2))
    decreases |b|
  {
    if b == [] {
      assert a + b == a;
      if CategoryItems(base, a).Ok? {
        var (s1, n1) := CategoryItems(base, a).value;
        assert s1 + [] == s1 && n1 + [] == n1;
      }
    } else {
      var init, last := b[..|b| - 1], b[|b| - 1];
      var ab := a + b;
      assert ab[..|ab| - 1] == a + init;
      assert ab[|ab| - 1] == last;
      CategoryItemsAppend(base, a, init);
      if CategoryItems(base, a).Ok? && CategoryItems(base, init).Ok? {
        var (s1, n1) := CategoryItems(base, a).value;
        var (s2, n2) := CategoryItems(base, init).value;
        var (category, ts) := last;
        if category == SqlCategory && SqlSubsegments(base, ts).Ok? {
          ConcatAssoc(s1, s2, SqlSubsegments(base, ts).value);
        } else if category == Annotations.Category {
          ConcatAssoc(n1, n2, TimingAnnotations(ts));
        }
      }
    }
  }

  /** A category other than `sql` and `xrayAnnotations` makes no difference,
      wherever it stands. */
  lemma {:induction false} OtherCategoryIgnored(base: real, a: seq<(string, seq<CustomTimingData>)>, category: string,
                                               ts: seq<CustomTimingData>, b: seq<(string, seq<CustomTimingData>)>)
    requires category != SqlCategory && category != Annotations.Category
    ensures CategoryItems(base, a + [(category, ts)] + b) == CategoryItems(base, a + b)
  {
    assert [(category, ts)][..0] == [];
    assert CategoryItems(base, [(category, ts)]) == Ok(([], []));
    CategoryItemsAppend(base, a, [(category, ts)]);
    CategoryItemsAppend(base, a + [(category, ts)], b);
    CategoryItemsAppend(base, a, b);
  }

  // ---------------------------------------------------------------------
  // The exporter's recursive walk, as it is written: loops over the
  // children and the custom timings.

  /** Builds the subsegment for `node` (`ProcessNode` in the exporter). */
  method ProcessNode(node: Timing, base: real) returns (r: Result<Subsegment, Exception>)
    ensures r == ConvertNode(node, base)
    decreases node
  {
    var kids: seq<Subsegment> := [];
    for i := 0 to |node.children|
      invariant ConvertChildren(node, base, i) == Ok(kids)
    {
      var sub := ProcessNode(node.children[i], base);
      if sub.Err? {
        ChildrenErrorStays(node, base, i + 1, |node.children|);
        return Err(sub.error);
      }
      kids := kids + [sub.value];
    }
    var items := ProcessCategories(base, node.customTimings);
    if items.Err? {
      return Err(items.error);
    }
    var (sqlSubs, notes) := items.value;
    var start := base + node.startMs / 1000.0;
    r := Ok(Subsegment(node.name, start, EndTime(start, node.durationMs), None, None, notes, kids + sqlSubs));
  }

  /** The custom timings of one node, one category at a time: SQL timings
      become subsegments, annotation timings annotations, the rest nothing. */
  method ProcessCategories(base: real, cats: seq<(string, seq<CustomTimingData>)>)
    returns (r: Result<(seq<Subsegment>, seq<(string, Value)>), Exception>)
    ensures r == CategoryItems(base, cats)
  {
    var sqlSubs: seq<Subsegment> := [];
    var notes: seq<(string, Value)> := [];
    for c := 0 to |cats|
      invariant CategoryItems(base, cats[..c]) == Ok((sqlSubs, notes))
    {
      assert cats[..c + 1][..c] == cats[..c];
      var (category, ts) := cats[c];
      if category == SqlCategory {
        var more := SqlTimings(base, ts);
        if more.Err? {
          CategoryErrorStays(base, cats, c + 1);
          return Err(more.error);
        }
        sqlSubs := sqlSubs + more.value;
      } else if category == Annotations.Category {
        var found := AnnotationsOf(ts);
        notes := notes + found;
      }
    }
    assert cats[..|cats|] == cats;
    r := Ok((sqlSubs, notes));
  }

  /** The SQL subsegments of one category, one command at a time. */
  method SqlTimings(base: real, ts: seq<CustomTimingData>) returns (r: Result<seq<Subsegment>, Exception>)
    ensures r == SqlSubsegments(base, ts)
  {
    var subs: seq<Subsegment> := [];
    for j := 0 to |ts|
      invariant SqlSubsegments(base, ts[..j]) == Ok(subs)
    {
      assert ts[..j + 1][..j] == ts[..j];
      var sub := SqlSubsegment(base, ts[j]);
      if sub.Err? {
        SqlErrorStays(base, ts, j + 1);
        return Err(sub.error);
      }
      subs := subs + [sub.value];
    }
    assert ts[..|ts|] == ts;
    r := Ok(subs);
  }

  /** The annotations of one category, one timing at a time; a timing whose
      command string does not decode adds nothing. */
  method AnnotationsOf(ts: seq<CustomTimingData>) returns (notes: seq<(string, Value)>)
    ensures notes == TimingAnnotations(ts)
  {
    notes := [];
    for j := 0 to |ts|
      invariant notes == TimingAnnotations(ts[..j])
    {
      assert ts[..j + 1][..j] == ts[..j];
      notes := notes + Annotations.DecodeAnnotations(ts[j].commandString);
    }
    assert ts[..|ts|] == ts;
  }

  /** Once a prefix of the children fails, every longer prefix fails the same way. */
  lemma {:induction false} ChildrenErrorStays(node: Timing, base: real, k: nat, n: nat)
    requires k <= n <= |node.children|
    requires ConvertChildren(node, base, k).Err?
    ensures ConvertChildren(node, base, n) == ConvertChildren(node, base, k)
    decreases n
  {
    if n > k {
      ChildrenErrorStays(node, base, k, n - 1);
    }
  }

  lemma {:induction false} CategoryErrorStays(base: real, cats: seq<(string, seq<CustomTimingData>)>, k: nat)
    requires k <= |cats|
    requires CategoryItems(base, cats[..k]).Err?
    ensures CategoryItems(base, cats) == CategoryItems(base, cats[..k])
    decreases |cats|
  {
    if |cats| > k {
      var init := cats[..|cats| - 1];
      assert init[..k] == cats[..k];
      CategoryErrorStays(base, init, k);
    } else {
      assert cats[..k] == cats;
    }
  }

  lemma {:induction false} SqlErrorStays(base: real, ts: seq<CustomTimingData>, k: nat)
    requires k <= |ts|
    requires SqlSubsegments(base, ts[..k]).Err?
    ensures SqlSubsegments(base, ts) == SqlSubsegments(base, ts[..k])
    decreases |ts|
  {
    if |ts| > k {
      var init := ts[..|ts| - 1];
      assert init[..k] == ts[..k];
      SqlErrorStays(base, init, k);
    } else {
      assert ts[..k] == ts;
    }
  }
}
