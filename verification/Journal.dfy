/**
  The append-only order journal: appends with size-based rotation, and the replay that
  reads every segment in the order of the sorted file names.
*/
module Journal {
  import opened Entities
  import opened Strings
  import opened Deduplication

  /** Longest line that a scanner with the default buffer accepts. */
  const MAX_LINE := 65535

  /** A line of a segment; None where the line does not parse. The length excludes the newline. */
  datatype Line = Line(entry: Option<Entry>, length: nat)

  /** The journal's files: the active one under `path`, rotated ones under `path.<seconds>`. */
  type Files = map<string, seq<Line>>

  function Size(lines: seq<Line>): nat {
    if lines == [] then 0 else Size(lines[..|lines| - 1]) + lines[|lines| - 1].length + 1
  }

  function Rotated(path: string, now: nat): string { path + "." + Decimal(now) }

  function AppendTo(files: Files, path: string, max: int, line: Line, now: nat): Files
    requires path in files
  {
    var active := files[path] + [line];
    if Size(active) < max then files[path := active]
    else files[Rotated(path, now) := active][path := []]
  }

  function Truncated(files: Files, path: string): Files {
    (map n | n in files && !IsPrefix(path, n) :: files[n])[path := []]
  }

  /** The names that a glob for `path*` finds, sorted. */
  ghost predicate Listing(files: Files, path: string, names: seq<string>) {
    Sorted(names) && forall n :: n in names <==> n in files && IsPrefix(path, n)
  }

  function Lines(files: Files, names: seq<string>): seq<Line>
    requires forall n :: n in names ==> n in files
  {
    if names == [] then [] else Lines(files, names[..|names| - 1]) + files[names[|names| - 1]]
  }

  function Records(lines: seq<Line>): seq<Entry> {
    if lines == [] then []
    else
      var l := lines[|lines| - 1];
      Records(lines[..|lines| - 1]) + if l.entry.Some? then [l.entry.value] else []
  }

  predicate Scannable(lines: seq<Line>) { forall i :: 0 <= i < |lines| ==> lines[i].length <= MAX_LINE }

  /** None: the scanner met a line it cannot hold, and replay fails. */
  function Replayed(lines: seq<Line>): Option<seq<Entry>> {
    if Scannable(lines) then Some(Dedup(Records(lines))) else None
  }

  /* ---------- The mutable log ---------- */

  class Log {
    const path: string
    const maxSizeBytes: int
    var files: Files

    ghost predicate Valid()
      reads this
    {
      path in files
    }

    constructor (path: string, maxSizeBytes: int)
      ensures Valid() && files == map[path := []] && this.path == path && this.maxSizeBytes == maxSizeBytes
    {
      this.path, this.maxSizeBytes, files := path, maxSizeBytes, map[path := []];
    }

    method Append(line: Line, now: nat)
      requires Valid()
      modifies this
      ensures Valid() && files == AppendTo(old(files), path, maxSizeBytes, line, now)
    {
      files := files[path := files[path] + [line]];
      RotateIfNeeded(now);
    }

    method RotateIfNeeded(now: nat)
      requires Valid()
      modifies this
      ensures Valid()
      ensures files == if Size(old(files)[path]) < maxSizeBytes then old(files)
                       else old(files)[Rotated(path, now) := old(files)[path]][path := []]
    {
      if Size(files[path]) < maxSizeBytes { return; }
      var rotated := path + "." + Decimal(now);
      files := files[rotated := files[path]] - {path};
      files := files[path := []];
    }

    /** `names` is what the directory listing returns. */
    method Replay(names: seq<string>) returns (r: Option<seq<Entry>>)
      requires Listing(files, path, names)
      ensures r == Replayed(Lines(files, names))
    {
      var indexes: map<string, nat> := map[];
      var entries: seq<Entry> := [];
      for i := 0 to |names|
        invariant Scannable(Lines(files, names[..i]))
        invariant entries == Dedup(Records(Lines(files, names[..i]))) && Indexed(indexes, entries)
      {
        assert names[..i + 1][..i] == names[..i];
        var ok;
        indexes, entries, ok := Scan(Lines(files, names[..i]), files[names[i]], indexes, entries);
        if !ok {
          LinesContain(files, names, i);
          return None;
        }
      }
      assert names[..|names|] == names;
      return Some(entries);
    }

    /** Reads one file; `before` is what the earlier files held. */
    static method Scan(ghost before: seq<Line>, lines: seq<Line>, indexes0: map<string, nat>, entries0: seq<Entry>)
      returns (indexes: map<string, nat>, entries: seq<Entry>, ok: bool)
      requires Scannable(before) && entries0 == Dedup(Records(before)) && Indexed(indexes0, entries0)
      ensures ok <==> Scannable(lines)
      ensures ok ==> entries == Dedup(Records(before + lines)) && Indexed(indexes, entries)
    {
      indexes, entries := indexes0, entries0;
      ghost var seen := before;
      for j := 0 to |lines|
        invariant seen == before + lines[..j] && Scannable(lines[..j])
        invariant entries == Dedup(Records(seen)) && Indexed(indexes, entries)
      {
        if lines[j].length > MAX_LINE { return indexes, entries, false; }
        ScanStep(seen, lines[j], indexes, entries);
        seen := seen + [lines[j]];
        if lines[j].entry.None? { continue; }
        var entry := lines[j].entry.value;
        if entry.clientOrderId != "" {
          if entry.clientOrderId in indexes {
            entries := entries[indexes[entry.clientOrderId] := entry];
            continue;
          }
          indexes := indexes[entry.clientOrderId := |entries|];
        }
        entries := entries + [entry];
      }
      assert seen == before + lines;
      ok := true;
    }

    method TruncateAfterReconciliation()
      requires Valid()
      modifies this
      ensures Valid() && files == Truncated(old(files), path)
    {
      files := map n | n in files && !IsPrefix(path, n) :: files[n];
      files := files[path := []];
    }
  }

  /* ---------- Why the loop computes the specification ---------- */

  /** The index map knows where each id stands. */
  ghost predicate Indexed(indexes: map<string, nat>, entries: seq<Entry>) {
    && Distinct(entries)
    && (forall id :: id in indexes <==> id != "" && Last(entries, id).Some?)
    && (forall id :: id in indexes ==> indexes[id] < |entries| && entries[indexes[id]].clientOrderId == id)
  }

  lemma IndexedNew(indexes: map<string, nat>, entries: seq<Entry>, e: Entry)
    requires Indexed(indexes, entries) && e.clientOrderId !in indexes
    ensures Put(entries, e) == entries + [e]
    ensures Indexed(if e.clientOrderId == "" then indexes else indexes[e.clientOrderId := |entries|], entries + [e])
  {
    PutDistinct(entries, e);
    forall id ensures Last(entries + [e], id) == if e.clientOrderId == id then Some(e) else Last(entries, id) {
      LastSnoc(entries, e, id);
    }
  }

  lemma IndexedAgain(indexes: map<string, nat>, entries: seq<Entry>, e: Entry)
    requires Indexed(indexes, entries) && e.clientOrderId in indexes
    ensures Put(entries, e) == entries[indexes[e.clientOrderId] := e]
    ensures Indexed(indexes, Put(entries, e))
  {
    PutDistinct(entries, e);
    ReplaceAt(entries, e);
    forall id | id != "" ensures Last(Put(entries, e), id).Some? <==> Last(entries, id).Some? {
      LastReplace(entries, e, id);
    }
  }

  /** One line: skipped, put in place of an earlier entry, or appended. */
  lemma ScanStep(seen: seq<Line>, l: Line, indexes: map<string, nat>, entries: seq<Entry>)
    requires entries == Dedup(Records(seen)) && Indexed(indexes, entries)
    ensures match l.entry
            case None => Dedup(Records(seen + [l])) == entries
            case Some(e) =>
              if e.clientOrderId in indexes then
                && Dedup(Records(seen + [l])) == entries[indexes[e.clientOrderId] := e]
                && Indexed(indexes, entries[indexes[e.clientOrderId] := e])
              else
                && Dedup(Records(seen + [l])) == entries + [e]
                && Indexed(if e.clientOrderId == "" then indexes else indexes[e.clientOrderId := |entries|], entries + [e])
  {
    RecordsSnoc(seen, l);
    if l.entry.Some? {
      DedupPut(Records(seen), l.entry.value);
      if l.entry.value.clientOrderId in indexes {
        IndexedAgain(indexes, entries, l.entry.value);
      } else {
        IndexedNew(indexes, entries, l.entry.value);
      }
    }
  }

  lemma RecordsSnoc(lines: seq<Line>, l: Line)
    ensures Records(lines + [l]) == if l.entry.Some? then Records(lines) + [l.entry.value] else Records(lines)
  {
    assert (lines + [l])[..|lines|] == lines;
  }

  lemma {:induction false} LinesContain(files: Files, names: seq<string>, i: nat)
    requires forall n :: n in names ==> n in files
    requires i < |names| && !Scannable(files[names[i]])
    ensures !Scannable(Lines(files, names))
  {
    var k := |names| - 1;
    var front := Lines(files, names[..k]);
    if i == k {
      var j :| 0 <= j < |files[names[i]]| && files[names[i]][j].length > MAX_LINE;
      assert Lines(files, names)[|front| + j] == files[names[i]][j];
    } else {
      LinesContain(files, names[..k], i);
      var j :| 0 <= j < |front| && front[j].length > MAX_LINE;
      assert Lines(files, names)[j] == front[j];
    }
  }

  /* ---------- Runs of appends ---------- */

  datatype Op = Append(line: Line, now: nat) | Truncate

  function Step(files: Files, path: string, max: int, op: Op): Files
    requires path in files
  {
    match op
    case Append(line, now) => AppendTo(files, path, max, line, now)
    case Truncate => Truncated(files, path)
  }

  function Run(path: string, max: int, ops: seq<Op>): (files: Files)
    ensures path in files
  {
    if ops == [] then map[path := []]
    else Step(Run(path, max, ops[..|ops| - 1]), path, max, ops[|ops| - 1])
  }

  datatype Segment = Segment(stamp: nat, lines: seq<Line>)

  /** The journal as the sequence of its segments in the order of rotation, and the active lines. */
  datatype Book = Book(rotated: seq<Segment>, active: seq<Line>)

  function Write(b: Book, max: int, op: Op): Book {
    match op
    case Append(line, now) =>
      var active := b.active + [line];
      if Size(active) < max then Book(b.rotated, active) else Book(b.rotated + [Segment(now, active)], [])
    case Truncate => Book([], [])
  }

  function Written(max: int, ops: seq<Op>): Book {
    if ops == [] then Book([], []) else Write(Written(max, ops[..|ops| - 1]), max, ops[|ops| - 1])
  }

  function Joined(segments: seq<Segment>): seq<Line> {
    if segments == [] then [] else Joined(segments[..|segments| - 1]) + segments[|segments| - 1].lines
  }

  /** Every line appended since the last truncation, in order. */
  function History(ops: seq<Op>): seq<Line> {
    if ops == [] then []
    else if ops[|ops| - 1].Truncate? then [] else History(ops[..|ops| - 1]) + [ops[|ops| - 1].line]
  }

  function TotalLength(lines: seq<Line>): nat {
    if lines == [] then 0 else TotalLength(lines[..|lines| - 1]) + lines[|lines| - 1].length
  }

  /** A file takes the lengths of its lines and a newline for each. */
  lemma {:induction false} SizeIs(lines: seq<Line>)
    ensures Size(lines) == TotalLength(lines) + |lines|
  {
    if lines != [] { SizeIs(lines[..|lines| - 1]); }
  }

  /** The last line brought the file to the limit, and no earlier one had. */
  ghost predicate JustFull(lines: seq<Line>, max: int) {
    && lines != [] && TotalLength(lines) + |lines| >= max
    && var front := lines[..|lines| - 1];
    front == [] || TotalLength(front) + |front| < max
  }

  /** The segment's last line is one of the appends, and its stamp the second of that append. */
  ghost predicate StampedBy(ops: seq<Op>, x: Segment) {
    exists k :: 0 <= k < |ops| && x.lines != [] && ops[k] == Append(x.lines[|x.lines| - 1], x.stamp)
  }

  lemma StampedMore(ops: seq<Op>, x: Segment)
    requires ops != [] && StampedBy(ops[..|ops| - 1], x)
    ensures StampedBy(ops, x)
  {
    var front := ops[..|ops| - 1];
    var k :| 0 <= k < |front| && x.lines != [] && front[k] == Append(x.lines[|x.lines| - 1], x.stamp);
    assert ops[k] == front[k];
  }

  lemma AppendFills(b: Book, max: int, ops: seq<Op>)
    requires ops != [] && ops[|ops| - 1].Append? && (b.active == [] || TotalLength(b.active) + |b.active| < max)
    ensures var op := ops[|ops| - 1];
            var x := Segment(op.now, b.active + [op.line]);
            if TotalLength(x.lines) + |x.lines| >= max
            then Write(b, max, op) == Book(b.rotated + [x], []) && JustFull(x.lines, max) && StampedBy(ops, x)
            else Write(b, max, op) == Book(b.rotated, x.lines)
  {
    var op := ops[|ops| - 1];
    var active := b.active + [op.line];
    SizeIs(active);
    assert active[..|b.active|] == b.active;
    assert ops[|ops| - 1] == Append(active[|active| - 1], op.now);
  }

  /**
    In every run a segment is what had been appended when the bytes, newlines included, first
    reached the limit, under the second of its last append; the active file is below the limit.
   */
  lemma {:induction false} SegmentsAreFull(max: int, ops: seq<Op>)
    ensures var b := Written(max, ops);
            && (forall x :: x in b.rotated ==> JustFull(x.lines, max) && StampedBy(ops, x))
            && (b.active == [] || TotalLength(b.active) + |b.active| < max)
  {
    if ops != [] {
      var front, op := ops[..|ops| - 1], ops[|ops| - 1];
      var b := Written(max, front);
      SegmentsAreFull(max, front);
      forall x | x in b.rotated ensures StampedBy(ops, x) { StampedMore(ops, x); }
      if op.Append? { AppendFills(b, max, ops); }
    }
  }

  lemma WriteAppends(b: Book, max: int, line: Line, now: nat)
    ensures var c := Write(b, max, Append(line, now));
            Joined(c.rotated) + c.active == Joined(b.rotated) + b.active + [line]
  {
    var c := Write(b, max, Append(line, now));
    if c.active == [] { assert c.rotated[..|b.rotated|] == b.rotated; }
  }

  lemma {:induction false} HistoryIsBook(max: int, ops: seq<Op>)
    ensures History(ops) == Joined(Written(max, ops).rotated) + Written(max, ops).active
  {
    if ops != [] {
      var n := |ops| - 1;
      HistoryIsBook(max, ops[..n]);
      if ops[n].Append? { WriteAppends(Written(max, ops[..n]), max, ops[n].line, ops[n].now); }
    }
  }

  /* ---------- The files hold the book ---------- */

  function Layout(path: string, segments: seq<Segment>, active: seq<Line>): Files {
    if segments == [] then map[path := active]
    else
      var last := segments[|segments| - 1];
      Layout(path, segments[..|segments| - 1], active)[Rotated(path, last.stamp) := last.lines]
  }

  lemma RotatedName(path: string, now: nat)
    ensures IsPrefix(path, Rotated(path, now)) && Rotated(path, now) != path && Less(path, Rotated(path, now))
  {
    assert |Rotated(path, now)| > |path|;
    assert Rotated(path, now) == path + ("." + Decimal(now)) && path + [] == path;
    LessAfterPrefix(path, [], "." + Decimal(now));
  }

  lemma {:induction false} LayoutActive(path: string, segments: seq<Segment>, active: seq<Line>, other: seq<Line>)
    ensures path in Layout(path, segments, active) && Layout(path, segments, active)[path] == active
    ensures Layout(path, segments, active)[path := other] == Layout(path, segments, other)
    ensures forall n :: n in Layout(path, segments, active) ==> IsPrefix(path, n)
  {
    if segments != [] {
      RotatedName(path, segments[|segments| - 1].stamp);
      LayoutActive(path, segments[..|segments| - 1], active, other);
    }
  }

  lemma RotationKeepsLayout(path: string, segments: seq<Segment>, active: seq<Line>, now: nat)
    ensures Layout(path, segments, active)[Rotated(path, now) := active][path := []]
            == Layout(path, segments + [Segment(now, active)], [])
  {
    var files, rotated := Layout(path, segments, active), Rotated(path, now);
    LayoutActive(path, segments, active, []);
    RotatedName(path, now);
    assert files[rotated := active][path := []] == files[path := []][rotated := active];
    assert (segments + [Segment(now, active)])[..|segments|] == segments;
  }

  lemma AppendKeepsLayout(path: string, max: int, b: Book, line: Line, now: nat)
    ensures path in Layout(path, b.rotated, b.active)
    ensures var c := Write(b, max, Append(line, now));
            AppendTo(Layout(path, b.rotated, b.active), path, max, line, now) == Layout(path, c.rotated, c.active)
  {
    var active := b.active + [line];
    var files := Layout(path, b.rotated, b.active);
    LayoutActive(path, b.rotated, b.active, active);
    var rotated := Rotated(path, now);
    RotationKeepsLayout(path, b.rotated, active, now);
    RotatedName(path, now);
    assert files[path := active][rotated := active][path := []] == files[rotated := active][path := []];
  }

  lemma {:induction false} FilesHoldBook(path: string, max: int, ops: seq<Op>)
    ensures Run(path, max, ops) == Layout(path, Written(max, ops).rotated, Written(max, ops).active)
  {
    if ops != [] {
      var n := |ops| - 1;
      var b := Written(max, ops[..n]);
      FilesHoldBook(path, max, ops[..n]);
      if ops[n].Append? {
        AppendKeepsLayout(path, max, b, ops[n].line, ops[n].now);
      } else {
        LayoutActive(path, b.rotated, b.active, []);
      }
    }
  }

  /* ---------- The order of reading ---------- */

  /** Rotations in distinct seconds, of one number of digits, in order. */
  ghost predicate Ordered(segments: seq<Segment>) {
    forall i, j :: 0 <= i < j < |segments| ==>
      segments[i].stamp < segments[j].stamp && |Decimal(segments[i].stamp)| == |Decimal(segments[j].stamp)|
  }

  /** Time never goes backwards, but may stand still; its numerals keep their length. */
  ghost predicate Steady(segments: seq<Segment>) {
    forall i, j :: 0 <= i < j < |segments| ==>
      segments[i].stamp <= segments[j].stamp && |Decimal(segments[i].stamp)| == |Decimal(segments[j].stamp)|
  }

  /** Two neighbouring rotations in one second. */
  ghost predicate Collide(segments: seq<Segment>) {
    exists i :: 0 < i < |segments| && segments[i - 1].stamp == segments[i].stamp
  }

  /** A new segment replaces the last one if it is of the same second. */
  function Outliving(rest: seq<Segment>, last: Segment): seq<Segment> {
    if rest != [] && rest[|rest| - 1].stamp == last.stamp then rest[..|rest| - 1] + [last] else rest + [last]
  }

  /** The segments that no later one of the same second has overwritten. */
  function Survivors(segments: seq<Segment>): seq<Segment> {
    if segments == [] then []
    else
      Outliving(Survivors(segments[..|segments| - 1]), segments[|segments| - 1])
  }

  lemma SurvivorsLast(segments: seq<Segment>)
    requires segments != []
    ensures Survivors(segments) != [] && Survivors(segments)[|Survivors(segments)| - 1] == segments[|segments| - 1]
  {
  }

  lemma LayoutSnoc(path: string, segments: seq<Segment>, last: Segment, active: seq<Line>)
    ensures Layout(path, segments + [last], active) == Layout(path, segments, active)[Rotated(path, last.stamp) := last.lines]
  {
    assert (segments + [last])[..|segments|] == segments;
  }

  lemma Overwritten(files: Files, name: string, first: seq<Line>, second: seq<Line>)
    ensures files[name := first][name := second] == files[name := second]
  {
  }

  lemma OutlivingLayout(path: string, rest: seq<Segment>, last: Segment, active: seq<Line>)
    ensures Layout(path, Outliving(rest, last), active) == Layout(path, rest, active)[Rotated(path, last.stamp) := last.lines]
  {
    if rest != [] && rest[|rest| - 1].stamp == last.stamp {
      var r, x := rest[..|rest| - 1], rest[|rest| - 1];
      assert r + [x] == rest;
      LayoutSnoc(path, r, x, active);
      LayoutSnoc(path, r, last, active);
      Overwritten(Layout(path, r, active), Rotated(path, last.stamp), x.lines, last.lines);
    } else {
      LayoutSnoc(path, rest, last, active);
    }
  }

  /** On disk, the overwritten segments might as well never have been. */
  lemma {:induction false} LayoutOfSurvivors(path: string, segments: seq<Segment>, active: seq<Line>)
    ensures Layout(path, segments, active) == Layout(path, Survivors(segments), active)
  {
    if segments != [] {
      var front, last := segments[..|segments| - 1], segments[|segments| - 1];
      LayoutOfSurvivors(path, front, active);
      OutlivingLayout(path, Survivors(front), last, active);
    }
  }

  lemma OrderedSnoc(segments: seq<Segment>, last: Segment)
    requires Ordered(segments)
    requires segments != [] ==>
               var x := segments[|segments| - 1]; x.stamp < last.stamp && |Decimal(x.stamp)| == |Decimal(last.stamp)|
    ensures Ordered(segments + [last])
  {
  }

  lemma {:induction false} SurvivorsOrdered(segments: seq<Segment>)
    requires Steady(segments)
    ensures Ordered(Survivors(segments))
  {
    if segments != [] {
      var front, last := segments[..|segments| - 1], segments[|segments| - 1];
      SurvivorsOrdered(front);
      var rest := Survivors(front);
      if front != [] {
        SurvivorsLast(front);
        assert Survivors(segments) == Outliving(rest, last);
        if rest[|rest| - 1].stamp == last.stamp {
          OrderedSnoc(rest[..|rest| - 1], last);
        } else {
          OrderedSnoc(rest, last);
        }
      }
    }
  }

  lemma CollideLast(segments: seq<Segment>)
    requires segments != []
    ensures var n := |segments| - 1;
            Collide(segments) <==> Collide(segments[..n]) || (n > 0 && segments[n - 1].stamp == segments[n].stamp)
  {
    var front := segments[..|segments| - 1];
    if Collide(front) {
      var i :| 0 < i < |front| && front[i - 1].stamp == front[i].stamp;
      assert segments[i - 1].stamp == segments[i].stamp;
    }
    assert forall i :: 0 <= i < |front| ==> front[i] == segments[i];
  }

  lemma {:induction false} SurvivorsOfDistinct(segments: seq<Segment>)
    ensures Survivors(segments) == segments <==> !Collide(segments)
    ensures Collide(segments) ==> |Survivors(segments)| < |segments|
    ensures |Survivors(segments)| <= |segments|
  {
    if segments != [] {
      var front := segments[..|segments| - 1];
      CollideLast(segments);
      SurvivorsOfDistinct(front);
      if front != [] { SurvivorsLast(front); }
    }
  }

  ghost predicate NoneEmpty(segments: seq<Segment>) { forall i :: 0 <= i < |segments| ==> segments[i].lines != [] }

  /** A segment is rotated only after a line was appended to it. */
  lemma {:induction false} RotatedNotEmpty(max: int, ops: seq<Op>)
    ensures NoneEmpty(Written(max, ops).rotated)
  {
    if ops != [] { RotatedNotEmpty(max, ops[..|ops| - 1]); }
  }

  /** Lines are lost exactly when some segment is. */
  lemma {:induction false} SurvivingLines(segments: seq<Segment>)
    requires NoneEmpty(segments)
    ensures |Joined(Survivors(segments))| <= |Joined(segments)|
    ensures |Joined(Survivors(segments))| < |Joined(segments)| <==> Collide(segments)
  {
    if segments != [] {
      var front, last := segments[..|segments| - 1], segments[|segments| - 1];
      var rest := Survivors(front);
      CollideLast(segments);
      SurvivingLines(front);
      if front != [] { SurvivorsLast(front); }
      if rest != [] && rest[|rest| - 1].stamp == last.stamp {
        assert (rest[..|rest| - 1] + [last])[..|rest| - 1] == rest[..|rest| - 1];
        assert segments[|front| - 1].lines != [];
      } else {
        assert (rest + [last])[..|rest|] == rest;
      }
    }
  }

  function Names(path: string, segments: seq<Segment>): seq<string> {
    if segments == [] then [path]
    else Names(path, segments[..|segments| - 1]) + [Rotated(path, segments[|segments| - 1].stamp)]
  }

  lemma RotatedOrder(path: string, m: nat, n: nat)
    requires m < n && |Decimal(m)| == |Decimal(n)|
    ensures Less(Rotated(path, m), Rotated(path, n)) && Rotated(path, m) != Rotated(path, n)
  {
    DecimalOrder(m, n);
    LessAfterPrefix(path + ".", Decimal(m), Decimal(n));
    LessIrreflexive(Rotated(path, n));
  }

  lemma {:induction false} NamesAre(path: string, segments: seq<Segment>)
    ensures |Names(path, segments)| == |segments| + 1 && Names(path, segments)[0] == path
    ensures forall i :: 0 <= i < |segments| ==> Names(path, segments)[i + 1] == Rotated(path, segments[i].stamp)
  {
    if segments != [] { NamesAre(path, segments[..|segments| - 1]); }
  }

  lemma {:induction false} NamesSorted(path: string, segments: seq<Segment>, active: seq<Line>)
    requires Ordered(segments)
    ensures Sorted(Names(path, segments))
    ensures forall n :: n in Names(path, segments) <==> n in Layout(path, segments, active)
  {
    if segments != [] {
      var k := |segments| - 1;
      var names, last := Names(path, segments[..k]), Rotated(path, segments[k].stamp);
      NamesSorted(path, segments[..k], active);
      NamesAre(path, segments[..k]);
      forall i | 0 <= i < |names| ensures Less(names[i], last) {
        if i == 0 {
          RotatedName(path, segments[k].stamp);
        } else {
          assert names[i - 1 + 1] == Rotated(path, segments[..k][i - 1].stamp);
          RotatedOrder(path, segments[i - 1].stamp, segments[k].stamp);
        }
      }
    }
  }

  lemma {:induction false} LayoutLookup(path: string, segments: seq<Segment>, active: seq<Line>, i: nat)
    requires Ordered(segments) && i < |segments|
    ensures Rotated(path, segments[i].stamp) in Layout(path, segments, active)
    ensures Layout(path, segments, active)[Rotated(path, segments[i].stamp)] == segments[i].lines
  {
    var k := |segments| - 1;
    if i != k {
      LayoutLookup(path, segments[..k], active, i);
      RotatedOrder(path, segments[i].stamp, segments[k].stamp);
    }
  }

  /** Every name is on disk, and holds the lines of its segment. */
  ghost predicate Holds(files: Files, path: string, segments: seq<Segment>, active: seq<Line>) {
    && path in files && files[path] == active
    && forall i :: 0 <= i < |segments| ==>
         Rotated(path, segments[i].stamp) in files && files[Rotated(path, segments[i].stamp)] == segments[i].lines
  }

  lemma {:induction false} HeldNames(files: Files, path: string, segments: seq<Segment>, active: seq<Line>)
    requires Holds(files, path, segments, active)
    ensures forall n :: n in Names(path, segments) ==> n in files
    ensures Lines(files, Names(path, segments)) == active + Joined(segments)
  {
    if segments == [] {
      assert [path][..0] == [];
    } else {
      var k := |segments| - 1;
      HeldNames(files, path, segments[..k], active);
      var names := Names(path, segments);
      assert names[..|names| - 1] == Names(path, segments[..k]);
      assert active + Joined(segments) == active + Joined(segments[..k]) + segments[k].lines;
    }
  }

  /** Replay reads the active file, though it was written last, before every segment that is left. */
  lemma ReadOrder(path: string, max: int, ops: seq<Op>, names: seq<string>)
    requires Steady(Written(max, ops).rotated) && Listing(Run(path, max, ops), path, names)
    ensures Lines(Run(path, max, ops), names) == Written(max, ops).active + Joined(Survivors(Written(max, ops).rotated))
  {
    var b := Written(max, ops);
    var left := Survivors(b.rotated);
    FilesHoldBook(path, max, ops);
    LayoutOfSurvivors(path, b.rotated, b.active);
    SurvivorsOrdered(b.rotated);
    NamesSorted(path, left, b.active);
    LayoutActive(path, left, b.active, []);
    SortedUnique(names, Names(path, left));
    forall i | 0 <= i < |left|
      ensures Rotated(path, left[i].stamp) in Layout(path, left, b.active)
      ensures Layout(path, left, b.active)[Rotated(path, left[i].stamp)] == left[i].lines
    { LayoutLookup(path, left, b.active, i); }
    HeldNames(Run(path, max, ops), path, left, b.active);
  }

  /** Some line appended since the last truncation is gone exactly when two neighbouring rotations shared a second. */
  lemma RotationLosesExactlyWhen(path: string, max: int, ops: seq<Op>, names: seq<string>)
    requires Steady(Written(max, ops).rotated) && Listing(Run(path, max, ops), path, names)
    ensures |Lines(Run(path, max, ops), names)| < |History(ops)| <==> Collide(Written(max, ops).rotated)
    ensures |Lines(Run(path, max, ops), names)| <= |History(ops)|
  {
    ReadOrder(path, max, ops, names);
    HistoryIsBook(max, ops);
    RotatedNotEmpty(max, ops);
    SurvivingLines(Written(max, ops).rotated);
  }

  lemma {:induction false} RecordsConcat(a: seq<Line>, b: seq<Line>)
    ensures Records(a + b) == Records(a) + Records(b)
  {
    if b == [] {
      assert a + b == a;
    } else {
      assert (a + b)[..|a + b| - 1] == a + b[..|b| - 1];
      RecordsConcat(a, b[..|b| - 1]);
    }
  }

  /**
    Replay gives the latest entry of an id exactly when: for an id in the active file, no
    surviving segment ends it differently; for any other id, the last segment that has it, if
    any, is not overwritten by one that ends it differently.
   */
  lemma {:induction false} LatestWinsExactlyWhen(path: string, max: int, ops: seq<Op>, names: seq<string>, id: string)
    requires Steady(Written(max, ops).rotated) && Listing(Run(path, max, ops), path, names) && id != ""
    requires Scannable(Lines(Run(path, max, ops), names))
    ensures var b := Written(max, ops);
            var active, rotated := Last(Records(b.active), id), Last(Records(Joined(b.rotated)), id);
            var left := Last(Records(Joined(Survivors(b.rotated))), id);
            Last(Replayed(Lines(Run(path, max, ops), names)).value, id) == Last(Records(History(ops)), id)
            <==> if active.Some? then left.None? || left == active else left == rotated
  {
    var b := Written(max, ops);
    var left := Joined(Survivors(b.rotated));
    ReadOrder(path, max, ops, names);
    HistoryIsBook(max, ops);
    RecordsConcat(b.active, left);
    RecordsConcat(Joined(b.rotated), b.active);
    LastConcat(Records(b.active), Records(left), id);
    LastConcat(Records(Joined(b.rotated)), Records(b.active), id);
    LastDedup(Records(Lines(Run(path, max, ops), names)), id);
  }

  /** With rotations in distinct seconds: exactly when the id does not span the active file and a segment, or ends alike in both. */
  lemma {:induction false} LatestWinsWithoutCollision(path: string, max: int, ops: seq<Op>, names: seq<string>, id: string)
    requires Steady(Written(max, ops).rotated) && !Collide(Written(max, ops).rotated)
    requires Listing(Run(path, max, ops), path, names) && id != ""
    requires Scannable(Lines(Run(path, max, ops), names))
    ensures var b := Written(max, ops);
            var active, rotated := Last(Records(b.active), id), Last(Records(Joined(b.rotated)), id);
            Last(Replayed(Lines(Run(path, max, ops), names)).value, id) == Last(Records(History(ops)), id)
            <==> active.None? || rotated.None? || active == rotated
  {
    LatestWinsExactlyWhen(path, max, ops, names, id);
    SurvivorsOfDistinct(Written(max, ops).rotated);
  }

  /** Without rotation, replay is the deduplicated history: the latest append of each id wins. */
  lemma ReplayWithoutRotation(path: string, max: int, ops: seq<Op>, names: seq<string>)
    requires Written(max, ops).rotated == [] && Listing(Run(path, max, ops), path, names)
    ensures Lines(Run(path, max, ops), names) == History(ops)
    ensures Scannable(History(ops)) ==> Replayed(Lines(Run(path, max, ops), names)) == Some(Dedup(Records(History(ops))))
  {
    ReadOrder(path, max, ops, names);
    HistoryIsBook(max, ops);
    assert [] + History(ops) == History(ops);
  }

  /** After a truncation there is nothing to replay. */
  lemma TruncationForgets(path: string, max: int, ops: seq<Op>, names: seq<string>)
    requires Listing(Run(path, max, ops + [Truncate]), path, names)
    ensures Replayed(Lines(Run(path, max, ops + [Truncate]), names)) == Some([])
  {
    var all := ops + [Truncate];
    assert all[..|ops|] == ops;
    assert Written(max, all) == Book([], []);
    ReplayWithoutRotation(path, max, all, names);
    assert Records(History(all)) == [];
  }

  /** The first line fills the active file and is rotated; the second stays active. */
  function OneAndOne(a: Line, b: Line): seq<Op> { [Append(a.(length := 20), 5), Append(b.(length := 5), 6)] }

  lemma WrittenSnoc(max: int, ops: seq<Op>, op: Op)
    ensures Written(max, ops + [op]) == Write(Written(max, ops), max, op)
    ensures op.Append? ==> History(ops + [op]) == History(ops) + [op.line]
  {
    assert (ops + [op])[..|ops|] == ops;
  }

  lemma OneLineSize(line: Line)
    ensures [] + [line] == [line] && Size([line]) == line.length + 1 && Joined([Segment(5, [line])]) == [line]
  {
    assert [line][..0] == [] && [Segment(5, [line])][..0] == [];
  }

  lemma OneAndOneBook(a: Line, b: Line)
    requires a.length == 20 && b.length == 5
    ensures Written(10, OneAndOne(a, b)) == Book([Segment(5, [a])], [b])
    ensures History(OneAndOne(a, b)) == [a, b] && Joined([Segment(5, [a])]) == [a]
  {
    OneLineSize(a);
    OneLineSize(b);
    WrittenSnoc(10, [], Append(a, 5));
    WrittenSnoc(10, [Append(a, 5)], Append(b, 6));
    assert [] + [Append(a, 5)] == [Append(a, 5)] && OneAndOne(a, b) == [Append(a, 5)] + [Append(b, 6)];
  }

  lemma RecordsOfTwo(a: Entry, b: Entry, m: nat, n: nat)
    ensures Records([Line(Some(a), m), Line(Some(b), n)]) == [a, b]
  {
    var x, y := Line(Some(a), m), Line(Some(b), n);
    assert [x, y][..1] == [x] && [x][..0] == [];
    assert Records([x]) == [a];
  }

  lemma OneSurvives(x: Segment)
    ensures Survivors([x]) == [x] && Steady([x])
  {
    assert [x][..0] == [];
  }

  lemma OneSegmentLines(path: string, ops: seq<Op>, a: Line, b: Line, names: seq<string>)
    requires Written(10, ops) == Book([Segment(5, [a])], [b]) && Joined([Segment(5, [a])]) == [a]
    requires Listing(Run(path, 10, ops), path, names)
    ensures Lines(Run(path, 10, ops), names) == [b, a]
  {
    var rotated := [Segment(5, [a])];
    OneSurvives(rotated[0]);
    ReadOrder(path, 10, ops, names);
    assert Lines(Run(path, 10, ops), names) == [b] + Joined(rotated);
    assert [b] + [a] == [b, a];
  }

  lemma OneAndOneLines(path: string, a: Line, b: Line, names: seq<string>)
    requires a.length == 20 && b.length == 5
    requires Listing(Run(path, 10, OneAndOne(a, b)), path, names)
    ensures Lines(Run(path, 10, OneAndOne(a, b)), names) == [b, a]
  {
    OneAndOneBook(a, b);
    OneSegmentLines(path, OneAndOne(a, b), a, b, names);
  }

  /** The short run that shows it: an intent is rotated away, its update is active, and replay returns the intent. */
  lemma RotatedEntryWinsOverUpdate(path: string, intent: Entry, update: Entry, names: seq<string>)
    requires intent.clientOrderId == update.clientOrderId != ""
    requires Listing(Run(path, 10, OneAndOne(Line(Some(intent), 20), Line(Some(update), 5))), path, names)
    ensures var ops := OneAndOne(Line(Some(intent), 20), Line(Some(update), 5));
            && Last(Dedup(Records(Lines(Run(path, 10, ops), names))), intent.clientOrderId) == Some(intent)
            && Last(Records(History(ops)), intent.clientOrderId) == Some(update)
  {
    var first, second := Line(Some(intent), 20), Line(Some(update), 5);
    OneAndOneLines(path, first, second, names);
    OneAndOneBook(first, second);
    RecordsOfTwo(update, intent, 5, 20);
    RecordsOfTwo(intent, update, 20, 5);
    LastDedup([update, intent], intent.clientOrderId);
  }

  /** Two rotations in one second write the same file name: the first segment is gone. */
  lemma SameSecondRotationLosesSegment(path: string, a: Entry, b: Entry)
    ensures var ops := [Append(Line(Some(a), 20), 5), Append(Line(Some(b), 20), 5)];
            Run(path, 10, ops) == map[path := [], Rotated(path, 5) := [Line(Some(b), 20)]]
  {
    var first, second := Line(Some(a), 20), Line(Some(b), 20);
    var ops := [Append(first, 5), Append(second, 5)];
    assert ops[..1] == [ops[0]] && [ops[0]][..0] == [];
    assert [] + [first] == [first] && [] + [second] == [second];
    assert [first][..0] == [] && [second][..0] == [];
    assert Size([first]) == Size([second]) == 21;
    RotatedName(path, 5);
    assert Run(path, 10, []) == map[path := []];
    assert Run(path, 10, ops[..1]) == map[path := [], Rotated(path, 5) := [first]];
  }
}
