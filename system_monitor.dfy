/**
  monitoring/system_monitor.go: how system metrics are read from the text
  printed by `top`, `uptime`, `docker stats`, `free -m`, `vm_stat` and
  `netstat`, and how `CollectMetrics` composes the collectors.

  Running a command is the parameter `run` (argument vector to combined
  output, or the error `exec` reports); float scanning is the `Scanners`
  bundle (the strconv and fmt parsers, whose rounding is not modelled);
  the clock and `runtime.NumCPU` are parameters of `CollectMetrics`.
*/
module SystemMonitor {
  import opened Wrappers
  import opened GoStrings

  /** `SystemMonitor`: which machine or container is observed. */
  datatype Monitor = Monitor(targetHost: string, isDocker: bool, containerID: string)

  /** `exec.CommandContext(...).CombinedOutput()`. */
  type Runner = seq<string> -> Result<string, string>

  /** The float parsers the collectors call:
      `parseFloat` is `strconv.ParseFloat(s, 64)`;
      `sscanf(format, s)` is `fmt.Sscanf(s, format, &x)` with one `%f` verb,
      giving the value it stores, or None when it stores nothing;
      `valueUnit(s)` is `fmt.Sscanf(s, "%f%s", &value, &unit)`, giving the
      two variables afterwards (each keeps its zero value when not scanned). */
  datatype Scanners = Scanners(
    parseFloat: string -> Option<real>,
    sscanf: (string, string) -> Option<real>,
    valueUnit: string -> (real, string))

  /** The values of a `SystemMetrics` record (the process fields, which no
      collector writes, are left out). */
  datatype Snapshot = Snapshot(
    timestamp: int,
    cpuUsagePercent: real,
    cpuCores: int,
    loadAverage1Min: real,
    loadAverage5Min: real,
    loadAverage15Min: real,
    totalMemoryMB: real,
    usedMemoryMB: real,
    freeMemoryMB: real,
    memoryUsagePercent: real,
    networkRxMB: real,
    networkTxMB: real,
    tcpConnections: int,
    tcpEstablished: int,
    tcpTimeWait: int)

  /** The record `CollectMetrics` starts from: stamped, the core count set,
      everything else zero. */
  function Fresh(now: int, cores: int): Snapshot {
    Snapshot(now, 0.0, cores, 0.0, 0.0, 0.0, 0.0, 0.0, 0.0, 0.0, 0.0, 0.0, 0, 0, 0)
  }

  /** The errors the collectors return. */
  datatype CollectError =
    | UnsupportedOS(goos: string)
    | CommandFailed(cause: string)
    | BadCPUValue(value: string)
    | BadDockerFormat(output: string)
    | BadConnectionCount(value: string)

  /** How a collector ends: returning nil, returning an error, or with a
      runtime panic (an out-of-range slice). */
  datatype Status = Success | Failure(cause: CollectError) | Panic

  /** The record after a collector, and how it ended. A collector that
      fails part-way leaves the fields it already wrote. */
  datatype Step = Step(state: Snapshot, status: Status)

  // ---------------------------------------------------------------------
  // Memory units

  /** `unit` spells `word` when upper-cased character by character. */
  predicate SpellsUnit(unit: string, word: string) {
    |unit| == |word| && forall i :: 0 <= i < |unit| ==> UpperChar(unit[i]) == word[i]
  }

  /** The switch of `parseMemoryValue`: a value in the given unit, in MB. */
  function InMB(value: real, unit: string): real {
    var u := ToUpper(unit);
    if u == "GIB" || u == "GB" || u == "G" then value * 1024.0
    else if u == "MIB" || u == "MB" || u == "M" then value
    else if u == "KIB" || u == "KB" || u == "K" then value / 1024.0
    else value
  }

  lemma SpellsUnitIsUpper(unit: string, word: string)
    ensures SpellsUnit(unit, word) <==> ToUpper(unit) == word
  {
    if ToUpper(unit) == word {
      assert forall i :: 0 <= i < |unit| ==> UpperChar(unit[i]) == ToUpper(unit)[i];
    }
    if SpellsUnit(unit, word) {
      assert ToUpper(unit) == word;
    }
  }

  /** The unit is matched ignoring case: gigabytes are scaled up by 1024,
      kilobytes down by 1024, and megabytes, unknown units and no unit at
      all are kept. */
  lemma UnitScaling(value: real, unit: string)
    ensures (SpellsUnit(unit, "G") || SpellsUnit(unit, "GB") || SpellsUnit(unit, "GIB")) ==>
      InMB(value, unit) == value * 1024.0
    ensures (SpellsUnit(unit, "K") || SpellsUnit(unit, "KB") || SpellsUnit(unit, "KIB")) ==>
      InMB(value, unit) * 1024.0 == value
    ensures (!(SpellsUnit(unit, "G") || SpellsUnit(unit, "GB") || SpellsUnit(unit, "GIB")) &&
             !(SpellsUnit(unit, "K") || SpellsUnit(unit, "KB") || SpellsUnit(unit, "KIB"))) ==>
      InMB(value, unit) == value
  {
    SpellsUnitIsUpper(unit, "G");
    SpellsUnitIsUpper(unit, "GB");
    SpellsUnitIsUpper(unit, "GIB");
    SpellsUnitIsUpper(unit, "M");
    SpellsUnitIsUpper(unit, "MB");
    SpellsUnitIsUpper(unit, "MIB");
    SpellsUnitIsUpper(unit, "K");
    SpellsUnitIsUpper(unit, "KB");
    SpellsUnitIsUpper(unit, "KIB");
  }

  /** `parseMemoryValue`. */
  function ParseMemoryValue(s: string, valueUnit: string -> (real, string)): real {
    var scanned := valueUnit(TrimSpace(s));
    InMB(scanned.0, scanned.1)
  }

  // ---------------------------------------------------------------------
  // The memory parsers

  /** Total, used and free memory in MB, as a parser read them. */
  datatype Memory = Memory(total: real, used: real, free: real)

  /** The fields every memory parser writes: the three amounts, and the
      usage percentage only when the total is positive. */
  function WithMemory(s: Snapshot, r: Memory): Snapshot {
    var percent := if r.total > 0.0 then (r.used / r.total) * 100.0 else s.memoryUsagePercent;
    s.(totalMemoryMB := r.total, usedMemoryMB := r.used, freeMemoryMB := r.free,
       memoryUsagePercent := percent)
  }

  /** Every memory parser writes the three amounts, and sets the usage
      percentage, used over total, only when the total is positive; no other
      field changes. */
  lemma MemoryPercentRule(s: Snapshot, r: Memory)
    ensures var t := WithMemory(s, r);
      && t.totalMemoryMB == r.total && t.usedMemoryMB == r.used && t.freeMemoryMB == r.free
      && (r.total <= 0.0 ==> t.memoryUsagePercent == s.memoryUsagePercent)
      && (r.total > 0.0 ==> t.memoryUsagePercent * r.total == r.used * 100.0)
      && t.(totalMemoryMB := s.totalMemoryMB, usedMemoryMB := s.usedMemoryMB,
            freeMemoryMB := s.freeMemoryMB, memoryUsagePercent := s.memoryUsagePercent) == s
  {
  }

  /** `parseDockerMemory` on "used / total": None is its format error. */
  function DockerMemory(output: string, valueUnit: string -> (real, string)): Option<Memory> {
    var parts := Split(output, '/');
    if |parts| != 2 then None
    else
      var used := ParseMemoryValue(TrimSpace(parts[0]), valueUnit);
      var total := ParseMemoryValue(TrimSpace(parts[1]), valueUnit);
      Some(Memory(total, used, total - used))
  }

  /** The reading of a docker text of two parts, field by field. */
  lemma DockerParts(output: string, valueUnit: string -> (real, string))
    requires |Split(output, '/')| == 2
    ensures var used := ParseMemoryValue(TrimSpace(Split(output, '/')[0]), valueUnit);
      var total := ParseMemoryValue(TrimSpace(Split(output, '/')[1]), valueUnit);
      DockerMemory(output, valueUnit) == Some(Memory(total, used, total - used))
  {
    var r := DockerMemory(output, valueUnit).value;
    var used := ParseMemoryValue(TrimSpace(Split(output, '/')[0]), valueUnit);
    var total := ParseMemoryValue(TrimSpace(Split(output, '/')[1]), valueUnit);
    assert r.used == used;
    assert r.total == total;
    assert r.free == total - used;
  }

  /** The docker text is accepted exactly when it holds one "/"; the used
      amount is read before it, the total after it, and free is their
      difference. */
  lemma DockerNeedsOneSlash(output: string, valueUnit: string -> (real, string))
    ensures DockerMemory(output, valueUnit).Some? <==> multiset(output)['/'] == 1
    ensures multiset(output)['/'] == 1 ==>
      var i := IndexOfChar(output, '/');
      var used := ParseMemoryValue(TrimSpace(output[..i]), valueUnit);
      var total := ParseMemoryValue(TrimSpace(output[i + 1..]), valueUnit);
      DockerMemory(output, valueUnit) == Some(Memory(total, used, total - used))
  {
    SplitCount(output, '/');
    if multiset(output)['/'] == 1 {
      OneSlashSplit(output);
      DockerParts(output, valueUnit);
    }
  }

  /** A text with one "/" splits into what comes before and after it. */
  lemma OneSlashSplit(output: string)
    requires multiset(output)['/'] == 1
    ensures var i := IndexOfChar(output, '/');
      Split(output, '/') == [output[..i], output[i + 1..]]
  {
    var i := IndexOfChar(output, '/');
    var before, after := output[..i], output[i + 1..];
    CutAt(output, i);
    assert multiset(output) == multiset(before) + multiset{'/'} + multiset(after);
    assert multiset(after)['/'] == 0;
    SplitAtFirst(before, '/', after);
  }

  /** The first line of `free -m` that starts with "Mem:". */
  function FirstMemLine(lines: seq<string>): (r: Option<string>)
    ensures r.Some? ==> r.value in lines && HasPrefix(r.value, "Mem:")
    ensures r.None? ==> forall l :: l in lines ==> !HasPrefix(l, "Mem:")
  {
    if |lines| == 0 then None
    else if HasPrefix(lines[0], "Mem:") then Some(lines[0])
    else FirstMemLine(lines[1..])
  }

  /** A "Mem:" line with at least seven fields gives total, used and free
      from fields 1, 2 and 3 (an unparsable number reads as 0). */
  function MemLine(line: string, parseFloat: string -> Option<real>): Option<Memory> {
    var fields := Fields(line);
    if |fields| >= 7 then
      Some(Memory(parseFloat(fields[1]).GetOr(0.0), parseFloat(fields[2]).GetOr(0.0),
                  parseFloat(fields[3]).GetOr(0.0)))
    else None
  }

  /** `parseLinuxMemory`: None when it writes nothing. */
  function LinuxMemory(output: string, parseFloat: string -> Option<real>): Option<Memory> {
    match FirstMemLine(Split(output, '\n'))
    case None => None
    case Some(line) => MemLine(line, parseFloat)
  }

  function ApplyMemory(s: Snapshot, r: Option<Memory>): Snapshot {
    match r
    case None => s
    case Some(m) => WithMemory(s, m)
  }

  /** Only the first "Mem:" line counts: what follows it, even another
      well-formed "Mem:" line, is never read. */
  lemma {:induction false} FirstMemLineDecides(before: seq<string>, line: string, after: seq<string>)
    requires forall l :: l in before ==> !HasPrefix(l, "Mem:")
    requires HasPrefix(line, "Mem:")
    ensures FirstMemLine(before + [line] + after) == Some(line)
  {
    if |before| > 0 {
      assert (before + [line] + after)[1..] == before[1..] + [line] + after;
      FirstMemLineDecides(before[1..], line, after);
      assert (before + [line] + after)[0] == before[0];
    } else {
      assert (before + [line] + after)[0] == line;
    }
  }

  /** The Linux parser writes memory exactly when the first "Mem:" line has
      at least seven fields, and then from that line alone. */
  lemma LinuxWritesFromFirstMemLine(before: seq<string>, line: string, after: seq<string>,
                                    parseFloat: string -> Option<real>)
    requires forall l :: l in before ==> !HasPrefix(l, "Mem:")
    requires HasPrefix(line, "Mem:")
    ensures var r := FirstMemLine(before + [line] + after);
      r.Some? && MemLine(r.value, parseFloat) == MemLine(line, parseFloat)
    ensures MemLine(line, parseFloat).Some? <==> |Fields(line)| >= 7
  {
    FirstMemLineDecides(before, line, after);
  }

  /** The counters `parseMacOSMemory` accumulates, in pages. */
  datatype Pages = Pages(free: real, active: real, inactive: real, wired: real)

  datatype PageKind = Free | Active | Inactive | Wired

  function PageCount(p: Pages, k: PageKind): real {
    match k
    case Free => p.free
    case Active => p.active
    case Inactive => p.inactive
    case Wired => p.wired
  }

  function SetPages(p: Pages, k: PageKind, v: real): (q: Pages)
    ensures PageCount(q, k) == v
    ensures forall j :: j != k ==> PageCount(q, j) == PageCount(p, j)
  {
    match k
    case Free => p.(free := v)
    case Active => p.(active := v)
    case Inactive => p.(inactive := v)
    case Wired => p.(wired := v)
  }

  /** Which counter a `vm_stat` line is about: the first label it contains,
      checked in the order of the if-else chain. */
  function PageLabel(line: string): Option<PageKind> {
    if Contains(line, "Pages free:") then Some(Free)
    else if Contains(line, "Pages active:") then Some(Active)
    else if Contains(line, "Pages inactive:") then Some(Inactive)
    else if Contains(line, "Pages wired down:") then Some(Wired)
    else None
  }

  /** The `Sscanf` format used for a counter. */
  function PageFormat(k: PageKind): string {
    match k
    case Free => "Pages free: %f"
    case Active => "Pages active: %f"
    case Inactive => "Pages inactive: %f"
    case Wired => "Pages wired down: %f"
  }

  /** The body of the line loop: a labelled line overwrites its counter when
      the scan stores a value, and changes nothing otherwise. */
  function PagesStep(p: Pages, line: string, sscanf: (string, string) -> Option<real>): (q: Pages)
    ensures forall k :: PageLabel(line) != Some(k) ==> PageCount(q, k) == PageCount(p, k)
  {
    match PageLabel(line)
    case None => p
    case Some(k) =>
      match sscanf(PageFormat(k), line)
      case None => p
      case Some(v) => SetPages(p, k, v)
  }

  /** The counters after the lines, in order. */
  function PagesOf(p: Pages, lines: seq<string>, sscanf: (string, string) -> Option<real>): Pages {
    if |lines| == 0 then p
    else PagesStep(PagesOf(p, lines[..|lines| - 1], sscanf), lines[|lines| - 1], sscanf)
  }

  lemma {:induction false} PagesOfAppend(p: Pages, a: seq<string>, b: seq<string>,
                                         sscanf: (string, string) -> Option<real>)
    ensures PagesOf(p, a + b, sscanf) == PagesOf(PagesOf(p, a, sscanf), b, sscanf)
    decreases |b|
  {
    if |b| == 0 {
      assert a + b == a;
    } else {
      assert (a + b)[..|a + b| - 1] == a + b[..|b| - 1];
      assert (a + b)[|a + b| - 1] == b[|b| - 1];
      PagesOfAppend(p, a, b[..|b| - 1], sscanf);
    }
  }

  /** A counter no line is labelled with keeps its value. */
  lemma {:induction false} PagesUntouched(p: Pages, lines: seq<string>, k: PageKind,
                                          sscanf: (string, string) -> Option<real>)
    requires forall l :: l in lines ==> PageLabel(l) != Some(k)
    ensures PageCount(PagesOf(p, lines, sscanf), k) == PageCount(p, k)
    decreases |lines|
  {
    if |lines| > 0 {
      assert lines[|lines| - 1] in lines;
      assert forall l :: l in lines[..|lines| - 1] ==> l in lines;
      PagesUntouched(p, lines[..|lines| - 1], k, sscanf);
    }
  }

  /** The last line that scans a counter decides its value. */
  lemma LastPageLineWins(p: Pages, before: seq<string>, line: string, after: seq<string>,
                         k: PageKind, sscanf: (string, string) -> Option<real>)
    requires PageLabel(line) == Some(k) && sscanf(PageFormat(k), line).Some?
    requires forall l :: l in after ==> PageLabel(l) != Some(k)
    ensures PageCount(PagesOf(p, before + [line] + after, sscanf), k) == sscanf(PageFormat(k), line).value
  {
    PagesOfAppend(p, before + [line], after, sscanf);
    PagesUntouched(PagesOf(p, before + [line], sscanf), after, k, sscanf);
    assert (before + [line])[..|before + [line]| - 1] == before;
  }

  const PageSize: real := 4096.0

  /** `parseMacOSMemory`, from the page counters. */
  function MacOSMemory(output: string, sscanf: (string, string) -> Option<real>): Memory {
    var p := PagesOf(Pages(0.0, 0.0, 0.0, 0.0), Split(output, '\n'), sscanf);
    var freeMB := (p.free * PageSize) / (1024.0 * 1024.0);
    var usedMB := ((p.active + p.inactive + p.wired) * PageSize) / (1024.0 * 1024.0);
    Memory(freeMB + usedMB, usedMB, freeMB)
  }

  /** With 4096-byte pages, a page is 1/256 MB: used memory is the active,
      inactive and wired pages, free memory the free pages, and the total
      their sum. */
  lemma MacOSTotals(output: string, sscanf: (string, string) -> Option<real>)
    ensures var p := PagesOf(Pages(0.0, 0.0, 0.0, 0.0), Split(output, '\n'), sscanf);
      var r := MacOSMemory(output, sscanf);
      && r.free * 256.0 == p.free
      && r.used * 256.0 == p.active + p.inactive + p.wired
      && r.total == r.used + r.free
  {
  }

  // ---------------------------------------------------------------------
  // Load average and CPU text

  const LoadLabel: string := "load average:"

  /** `collectLoadAverage` on the `uptime` text: None is the panic of a
      slice starting past the end of the text. */
  function LoadAverage(s: Snapshot, uptime: string, sscanf: (string, string) -> Option<real>): Option<Snapshot> {
    LoadAt(s, uptime, Index(uptime, LoadLabel), sscanf)
  }

  /** The load average once the label has been looked for: `idx` is where
      it starts, or -1. */
  function LoadAt(s: Snapshot, uptime: string, idx: int, sscanf: (string, string) -> Option<real>): Option<Snapshot> {
    if idx < 0 then Some(s)
    else if idx + 14 > |uptime| then None
    else Some(ScanLoads(s, uptime[idx + 14..], sscanf))
  }

  /** The three comma-separated loads after the label; fewer than three
      leave the record as it is, and an unscannable one keeps its old value. */
  function ScanLoads(s: Snapshot, text: string, sscanf: (string, string) -> Option<real>): Snapshot {
    var loads := Split(TrimSpace(text), ',');
    if |loads| >= 3 then
      s.(loadAverage1Min := sscanf("%f", TrimSpace(loads[0])).GetOr(s.loadAverage1Min),
         loadAverage5Min := sscanf("%f", TrimSpace(loads[1])).GetOr(s.loadAverage5Min),
         loadAverage15Min := sscanf("%f", TrimSpace(loads[2])).GetOr(s.loadAverage15Min))
    else s
  }

  /** The load average panics exactly when the first "load average:" ends
      the text; without the label nothing changes; otherwise only the three
      load fields may change. */
  lemma LoadAverageCases(s: Snapshot, uptime: string, sscanf: (string, string) -> Option<real>)
    ensures LoadAverage(s, uptime, sscanf).None? <==>
      Contains(uptime, LoadLabel) && Index(uptime, LoadLabel) + |LoadLabel| == |uptime|
    ensures !Contains(uptime, LoadLabel) ==> LoadAverage(s, uptime, sscanf) == Some(s)
    ensures Contains(uptime, LoadLabel) && Index(uptime, LoadLabel) + |LoadLabel| < |uptime| ==>
      LoadAverage(s, uptime, sscanf) == Some(ScanLoads(s, uptime[Index(uptime, LoadLabel) + |LoadLabel| + 1..], sscanf))
    ensures LoadAverage(s, uptime, sscanf).Some? ==>
      LoadAverage(s, uptime, sscanf).value.(loadAverage1Min := s.loadAverage1Min,
        loadAverage5Min := s.loadAverage5Min, loadAverage15Min := s.loadAverage15Min) == s
  {
    IndexIsFirst(uptime, LoadLabel);
  }

  /** The usual text after the label, " x, y, z": the three loads are
      scanned from x, y and z. */
  lemma ScanUsualLoads(s: Snapshot, text: string, x: string, y: string, z: string, tail: string,
                       sscanf: (string, string) -> Option<real>)
    requires text == x + ", " + y + ", " + z + tail
    requires |x| > 0 && |z| > 0 && Trimmed(x) && Trimmed(y) && Trimmed(z) && AllSpace(tail)
    requires ',' !in x && ',' !in y && ',' !in z
    ensures ScanLoads(s, text, sscanf) ==
      s.(loadAverage1Min := sscanf("%f", x).GetOr(s.loadAverage1Min),
         loadAverage5Min := sscanf("%f", y).GetOr(s.loadAverage5Min),
         loadAverage15Min := sscanf("%f", z).GetOr(s.loadAverage15Min))
  {
    LoadFields(text, x, y, z, tail);
  }

  /** Splitting "x, y, z" at the commas and trimming each part gives back
      x, y and z. */
  lemma LoadFields(text: string, x: string, y: string, z: string, tail: string)
    requires text == x + ", " + y + ", " + z + tail
    requires |x| > 0 && |z| > 0 && Trimmed(x) && Trimmed(y) && Trimmed(z) && AllSpace(tail)
    requires ',' !in x && ',' !in y && ',' !in z
    ensures var loads := Split(TrimSpace(text), ',');
      |loads| >= 3 && TrimSpace(loads[0]) == x && TrimSpace(loads[1]) == y && TrimSpace(loads[2]) == z
  {
    TrimLoads(x, y, z, tail);
    SplitLoads(x, y, z);
    TrimSpacePadded([], x, []);
    assert [] + x + [] == x;
    TrimSpacePadded(" ", y, []);
    assert " " + y + [] == " " + y;
    TrimSpacePadded(" ", z, []);
    assert " " + z + [] == " " + z;
  }

  lemma TrimLoads(x: string, y: string, z: string, tail: string)
    requires |x| > 0 && |z| > 0 && Trimmed(x) && Trimmed(z) && AllSpace(tail)
    ensures TrimSpace(x + ", " + y + ", " + z + tail) == x + ", " + y + ", " + z
  {
    var body := x + ", " + y + ", " + z;
    assert body[0] == x[0] && body[|body| - 1] == z[|z| - 1];
    TrimSpacePadded([], body, tail);
    assert [] + body + tail == body + tail;
  }

  lemma SplitLoads(x: string, y: string, z: string)
    requires ',' !in x && ',' !in y && ',' !in z
    ensures Split(x + ", " + y + ", " + z, ',') == [x, " " + y, " " + z]
  {
    var rest2 := " " + z;
    var rest1 := " " + y + [','] + rest2;
    CommaSeparated(x, y, z);
    SpacedNoComma(y);
    SpacedNoComma(z);
    assert Split(rest2, ',') == [rest2];
    SplitAtFirst(" " + y, ',', rest2);
    assert Split(rest1, ',') == [" " + y, rest2];
    SplitAtFirst(x, ',', rest1);
  }

  lemma SpacedNoComma(y: string)
    requires ',' !in y
    ensures ',' !in " " + y
  {
    assert forall k :: 1 <= k < |" " + y| ==> (" " + y)[k] == y[k - 1];
  }

  lemma CommaSeparated(x: string, y: string, z: string)
    ensures x + ", " + y + ", " + z == x + [','] + (" " + y + [','] + (" " + z))
  {
  }

  /** The CPU text: trimmed, then one trailing "%", then one trailing "us". */
  function CPUText(output: string): string {
    TrimSuffix(TrimSuffix(TrimSpace(output), "%"), "us")
  }

  /** A number ending in a digit is read back from the forms `top` and
      `docker stats` print, whatever white space surrounds it. */
  lemma CPUTextStrips(before: string, v: string, unit: string, after: string)
    requires AllSpace(before) && AllSpace(after)
    requires |v| > 0 && !IsSpace(v[0]) && IsDigit(v[|v| - 1])
    requires unit == "" || unit == "%" || unit == "us" || unit == "us%"
    ensures CPUText(before + v + unit + after) == v
  {
    var w := v + unit;
    assert before + v + unit + after == before + w + after;
    assert w[0] == v[0];
    assert w[|w| - 1] == if unit == "" then v[|v| - 1] else unit[|unit| - 1];
    TrimSpacePadded(before, w, after);
    StripCPUUnit(v, unit);
  }

  lemma StripCPUUnit(v: string, unit: string)
    requires |v| > 0 && IsDigit(v[|v| - 1])
    requires unit == "" || unit == "%" || unit == "us" || unit == "us%"
    ensures TrimSuffix(TrimSuffix(v + unit, "%"), "us") == v
  {
    var w := v + unit;
    if unit == "%" || unit == "us%" {
      assert w[|w| - 1..] == "%";
      assert w[..|w| - 1] == v + unit[..|unit| - 1];
    } else {
      assert w[|w| - 1] != '%';
      assert w[|w| - 1..] != "%";
    }
    var x := v + (if unit == "%" || unit == "us%" then unit[..|unit| - 1] else unit);
    if unit == "us" || unit == "us%" {
      assert x == v + "us";
      assert x[|x| - 2..] == "us";
      assert x[..|x| - 2] == v;
    } else {
      assert x == v;
      assert x[|x| - 1] != 's';
      assert |x| < 2 || x[|x| - 2..] != "us" by {
        if |x| >= 2 {
          assert x[|x| - 2..][1] == x[|x| - 1];
        }
      }
    }
  }

  // ---------------------------------------------------------------------
  // The collectors

  /** The command `collectCPUMetrics` runs. */
  function CPUCommand(m: Monitor, goos: string): (r: Result<seq<string>, CollectError>)
    ensures r.Err? <==> !m.isDocker && m.targetHost == "" && goos != "darwin" && goos != "linux"
    ensures r.Err? ==> r.error == UnsupportedOS(goos)
  {
    if m.isDocker then Ok(["docker", "stats", m.containerID, "--no-stream", "--format", "{{.CPUPerc}}"])
    else if m.targetHost != "" then Ok(["ssh", m.targetHost, "top -bn1 | grep 'Cpu(s)' | awk '{print $2}'"])
    else if goos == "darwin" then Ok(["sh", "-c", "top -l 1 -n 0 | grep 'CPU usage' | awk '{print $3}'"])
    else if goos == "linux" then Ok(["sh", "-c", "top -bn1 | grep 'Cpu(s)' | awk '{print $2}'"])
    else Err(UnsupportedOS(goos))
  }

  /** The command `collectLoadAverage` runs. */
  function UptimeCommand(m: Monitor): seq<string> {
    if m.targetHost != "" then ["ssh", m.targetHost, "uptime"] else ["uptime"]
  }

  /** `collectLoadAverage`. */
  function CollectLoad(m: Monitor, run: Runner, sscanf: (string, string) -> Option<real>, s: Snapshot): Step {
    match run(UptimeCommand(m))
    case Err(e) => Step(s, Failure(CommandFailed(e)))
    case Ok(out) =>
      match LoadAverage(s, out, sscanf)
      case None => Step(s, Panic)
      case Some(t) => Step(t, Success)
  }

  /** `collectCPUMetrics`: the load average is read only off Windows, and
      its error is dropped (its panic is not). */
  function CollectCPU(m: Monitor, goos: string, run: Runner, sc: Scanners, s: Snapshot): Step {
    match CPUCommand(m, goos)
    case Err(e) => Step(s, Failure(e))
    case Ok(argv) =>
      match run(argv)
      case Err(e) => Step(s, Failure(CommandFailed(e)))
      case Ok(out) =>
        var cpuStr := CPUText(out);
        match sc.parseFloat(cpuStr)
        case None => Step(s, Failure(BadCPUValue(cpuStr)))
        case Some(v) =>
          var withCPU := s.(cpuUsagePercent := v);
          if goos != "windows" then
            var load := CollectLoad(m, run, sc.sscanf, withCPU);
            if load.status.Panic? then load else Step(load.state, Success)
          else Step(withCPU, Success)
  }

  /** The command `collectMemoryMetrics` runs. */
  function MemoryCommand(m: Monitor, goos: string): (r: Result<seq<string>, CollectError>)
    ensures r.Err? <==> !m.isDocker && m.targetHost == "" && goos != "darwin" && goos != "linux"
  {
    if m.isDocker then Ok(["docker", "stats", m.containerID, "--no-stream", "--format", "{{.MemUsage}}"])
    else if m.targetHost != "" then Ok(["ssh", m.targetHost, "free -m"])
    else if goos == "darwin" then Ok(["vm_stat"])
    else if goos == "linux" then Ok(["free", "-m"])
    else Err(UnsupportedOS(goos))
  }

  /** `parseDockerMemory` as a step. */
  function DockerStep(s: Snapshot, output: string, valueUnit: string -> (real, string)): Step {
    match DockerMemory(output, valueUnit)
    case None => Step(s, Failure(BadDockerFormat(output)))
    case Some(r) => Step(WithMemory(s, r), Success)
  }

  /** `collectMemoryMetrics`: the parser follows the command's output format. */
  function CollectMemory(m: Monitor, goos: string, run: Runner, sc: Scanners, s: Snapshot): Step {
    match MemoryCommand(m, goos)
    case Err(e) => Step(s, Failure(e))
    case Ok(argv) =>
      match run(argv)
      case Err(e) => Step(s, Failure(CommandFailed(e)))
      case Ok(out) =>
        if m.isDocker then DockerStep(s, out, sc.valueUnit)
        else if goos == "linux" || m.targetHost != "" then
          Step(ApplyMemory(s, LinuxMemory(out, sc.parseFloat)), Success)
        else if goos == "darwin" then Step(WithMemory(s, MacOSMemory(out, sc.sscanf)), Success)
        else Step(s, Success)
  }

  /** The command `collectConnectionMetrics` runs. */
  function ConnectionCommand(m: Monitor, goos: string): (r: Result<seq<string>, CollectError>)
    ensures r.Err? <==> m.targetHost == "" && goos != "darwin" && goos != "linux"
  {
    if m.targetHost != "" then Ok(["ssh", m.targetHost, "netstat -an | grep ESTABLISHED | wc -l"])
    else if goos == "darwin" || goos == "linux" then Ok(["sh", "-c", "netstat -an | grep ESTABLISHED | wc -l"])
    else Err(UnsupportedOS(goos))
  }

  /** `collectConnectionMetrics`: one count sets both connection fields. */
  function CollectConnections(m: Monitor, goos: string, run: Runner, s: Snapshot): Step {
    match ConnectionCommand(m, goos)
    case Err(e) => Step(s, Failure(e))
    case Ok(argv) =>
      match run(argv)
      case Err(e) => Step(s, Failure(CommandFailed(e)))
      case Ok(out) =>
        match Atoi(TrimSpace(out))
        case None => Step(s, Failure(BadConnectionCount(TrimSpace(out))))
        case Some(n) => Step(s.(tcpEstablished := n, tcpConnections := n), Success)
  }

  /** A count printed by `wc -l` is read back as that number. */
  lemma ConnectionCountRead(m: Monitor, goos: string, run: Runner, s: Snapshot, n: int, pad: string)
    requires ConnectionCommand(m, goos).Ok? && InInt64(n) && AllSpace(pad)
    requires run(ConnectionCommand(m, goos).value) == Ok(pad + IntToString(n) + "\n")
    ensures CollectConnections(m, goos, run, s) ==
      Step(s.(tcpEstablished := n, tcpConnections := n), Success)
  {
    var t := IntToString(n);
    assert Trimmed(t) by {
      if n < 0 {
        assert t == "-" + NatToString(-n);
        assert t[|t| - 1] == NatToString(-n)[|NatToString(-n)| - 1];
        assert IsDigit(t[|t| - 1]);
      } else {
        assert IsDigit(t[0]) && IsDigit(t[|t| - 1]);
      }
    }
    TrimSpacePadded(pad, t, "\n");
    AtoiItoa(n);
  }

  /** What `CollectMetrics` returns when it fails. */
  datatype MetricsError = CPUFailed(cause: CollectError) | MemoryFailed(cause: CollectError) | Panicked

  /** `CollectMetrics`: CPU and memory errors are fatal, the network
      collector does nothing, and a connection error is only a warning. */
  function Collect(m: Monitor, goos: string, now: int, cores: int, run: Runner, sc: Scanners): Result<Snapshot, MetricsError> {
    var cpu := CollectCPU(m, goos, run, sc, Fresh(now, cores));
    match cpu.status
    case Panic => Err(Panicked)
    case Failure(e) => Err(CPUFailed(e))
    case Success =>
      var mem := CollectMemory(m, goos, run, sc, cpu.state);
      if mem.status.Failure? then Err(MemoryFailed(mem.status.cause))
      else Ok(CollectConnections(m, goos, run, mem.state).state)
  }

  /** Which failures are fatal: exactly the CPU and memory collectors'. */
  lemma CollectFatality(m: Monitor, goos: string, now: int, cores: int, run: Runner, sc: Scanners)
    ensures var cpu := CollectCPU(m, goos, run, sc, Fresh(now, cores));
      && (Collect(m, goos, now, cores, run, sc) == Err(Panicked) <==> cpu.status == Panic)
      && (forall e :: Collect(m, goos, now, cores, run, sc) == Err(CPUFailed(e)) <==> cpu.status == Failure(e))
      && (cpu.status == Success ==>
          var mem := CollectMemory(m, goos, run, sc, cpu.state);
          (Collect(m, goos, now, cores, run, sc).Ok? <==> !mem.status.Failure?))
  {
    var cpu := CollectCPU(m, goos, run, sc, Fresh(now, cores));
    if cpu.status == Success {
      var mem := CollectMemory(m, goos, run, sc, cpu.state);
      assert mem.status.Panic? ==> false by {
        match MemoryCommand(m, goos)
        case Err(e) =>
        case Ok(argv) =>
      }
    }
  }

  /** A collected record carries the clock and core count it was given, no
      network figures, and one connection count in both connection fields:
      the one read when that collector succeeded, zero when it failed. */
  lemma CollectedRecord(m: Monitor, goos: string, now: int, cores: int, run: Runner, sc: Scanners)
    requires Collect(m, goos, now, cores, run, sc).Ok?
    ensures var r := Collect(m, goos, now, cores, run, sc).value;
      && r.timestamp == now && r.cpuCores == cores
      && r.networkRxMB == 0.0 && r.networkTxMB == 0.0 && r.tcpTimeWait == 0
      && r.tcpConnections == r.tcpEstablished
      && (ConnectionCommand(m, goos).Err? ==> r.tcpConnections == 0)
      && (ConnectionCommand(m, goos).Ok? && run(ConnectionCommand(m, goos).value).Ok? &&
          Atoi(TrimSpace(run(ConnectionCommand(m, goos).value).value)).Some? ==>
          r.tcpConnections == Atoi(TrimSpace(run(ConnectionCommand(m, goos).value).value)).value)
      && (ConnectionCommand(m, goos).Ok? && run(ConnectionCommand(m, goos).value).Err? ==> r.tcpConnections == 0)
      && (ConnectionCommand(m, goos).Ok? && run(ConnectionCommand(m, goos).value).Ok? &&
          Atoi(TrimSpace(run(ConnectionCommand(m, goos).value).value)).None? ==>
          r.tcpConnections == 0)
  {
    var start := Fresh(now, cores);
    var cpu := CollectCPU(m, goos, run, sc, start);
    CPULeavesCounts(m, goos, run, sc, start);
    var mem := CollectMemory(m, goos, run, sc, cpu.state);
    MemoryLeavesCounts(m, goos, run, sc, cpu.state);
    ConnectionsSetCounts(m, goos, run, mem.state);
  }

  /** The fields neither the CPU nor the memory collector writes: the clock,
      the core count, the network and connection figures. */
  predicate SameCounts(a: Snapshot, b: Snapshot) {
    a.timestamp == b.timestamp && a.cpuCores == b.cpuCores
    && a.networkRxMB == b.networkRxMB && a.networkTxMB == b.networkTxMB
    && a.tcpConnections == b.tcpConnections && a.tcpEstablished == b.tcpEstablished
    && a.tcpTimeWait == b.tcpTimeWait
  }

  /** The CPU collector writes only the CPU figure and the load averages. */
  lemma CPULeavesCounts(m: Monitor, goos: string, run: Runner, sc: Scanners, s: Snapshot)
    ensures SameCounts(CollectCPU(m, goos, run, sc, s).state, s)
  {
    match CPUCommand(m, goos)
    case Err(e) =>
    case Ok(argv) =>
      match run(argv)
      case Err(e) =>
      case Ok(out) =>
        var cpuStr := CPUText(out);
        match sc.parseFloat(cpuStr)
        case None =>
        case Some(v) =>
          var withCPU := s.(cpuUsagePercent := v);
          if goos != "windows" {
            match run(UptimeCommand(m))
            case Err(e) =>
            case Ok(up) =>
              LoadAverageCases(withCPU, up, sc.sscanf);
          }
  }

  /** The memory collector writes only the memory figures. */
  lemma MemoryLeavesCounts(m: Monitor, goos: string, run: Runner, sc: Scanners, s: Snapshot)
    ensures SameCounts(CollectMemory(m, goos, run, sc, s).state, s)
  {
  }

  /** The connection collector leaves zero or the count read in both
      connection fields, and touches nothing else the others leave. */
  lemma ConnectionsSetCounts(m: Monitor, goos: string, run: Runner, s: Snapshot)
    requires s.tcpConnections == 0 && s.tcpEstablished == 0
    ensures var r := CollectConnections(m, goos, run, s).state;
      && r.timestamp == s.timestamp && r.cpuCores == s.cpuCores
      && r.networkRxMB == s.networkRxMB && r.networkTxMB == s.networkTxMB
      && r.tcpTimeWait == s.tcpTimeWait
      && r.tcpConnections == r.tcpEstablished
      && (ConnectionCommand(m, goos).Err? ==> r.tcpConnections == 0)
      && (ConnectionCommand(m, goos).Ok? && run(ConnectionCommand(m, goos).value).Ok? &&
          Atoi(TrimSpace(run(ConnectionCommand(m, goos).value).value)).Some? ==>
          r.tcpConnections == Atoi(TrimSpace(run(ConnectionCommand(m, goos).value).value)).value)
      && (ConnectionCommand(m, goos).Ok? && run(ConnectionCommand(m, goos).value).Err? ==> r.tcpConnections == 0)
      && (ConnectionCommand(m, goos).Ok? && run(ConnectionCommand(m, goos).value).Ok? &&
          Atoi(TrimSpace(run(ConnectionCommand(m, goos).value).value)).None? ==>
          r.tcpConnections == 0)
  {
  }

  // ---------------------------------------------------------------------
  // The record the collectors write into

  /** `SystemMetrics`. */
  class SystemMetrics {
    var timestamp: int
    var cpuUsagePercent: real
    var cpuCores: int
    var loadAverage1Min: real
    var loadAverage5Min: real
    var loadAverage15Min: real
    var totalMemoryMB: real
    var usedMemoryMB: real
    var freeMemoryMB: real
    var memoryUsagePercent: real
    var networkRxMB: real
    var networkTxMB: real
    var tcpConnections: int
    var tcpEstablished: int
    var tcpTimeWait: int

    function State(): Snapshot
      reads this
    {
      Snapshot(timestamp, cpuUsagePercent, cpuCores, loadAverage1Min, loadAverage5Min,
        loadAverage15Min, totalMemoryMB, usedMemoryMB, freeMemoryMB, memoryUsagePercent,
        networkRxMB, networkTxMB, tcpConnections, tcpEstablished, tcpTimeWait)
    }

    constructor (now: int, cores: int)
      ensures State() == Fresh(now, cores)
    {
      timestamp := now;
      cpuUsagePercent := 0.0;
      cpuCores := cores;
      loadAverage1Min := 0.0;
      loadAverage5Min := 0.0;
      loadAverage15Min := 0.0;
      totalMemoryMB := 0.0;
      usedMemoryMB := 0.0;
      freeMemoryMB := 0.0;
      memoryUsagePercent := 0.0;
      networkRxMB := 0.0;
      networkTxMB := 0.0;
      tcpConnections := 0;
      tcpEstablished := 0;
      tcpTimeWait := 0;
    }
  }

  /** The field writes every memory parser ends with. */
  method SetMemory(metrics: SystemMetrics, r: Memory)
    modifies metrics
    ensures metrics.State() == WithMemory(old(metrics.State()), r)
  {
    metrics.totalMemoryMB := r.total;
    metrics.usedMemoryMB := r.used;
    metrics.freeMemoryMB := r.free;
    if r.total > 0.0 {
      metrics.memoryUsagePercent := (r.used / r.total) * 100.0;
    }
  }

  /** `parseDockerMemory`. */
  method ParseDockerMemory(output: string, metrics: SystemMetrics, valueUnit: string -> (real, string))
    returns (status: Status)
    modifies metrics
    ensures Step(metrics.State(), status) == DockerStep(old(metrics.State()), output, valueUnit)
  {
    var parts := Split(output, '/');
    if |parts| != 2 {
      assert DockerMemory(output, valueUnit) == None;
      return Failure(BadDockerFormat(output));
    }
    var usedStr := TrimSpace(parts[0]);
    var totalStr := TrimSpace(parts[1]);
    var used := ParseMemoryValue(usedStr, valueUnit);
    var total := ParseMemoryValue(totalStr, valueUnit);
    var reading := Memory(total, used, total - used);
    DockerParts(output, valueUnit);
    assert reading == DockerMemory(output, valueUnit).value;
    ghost var before := metrics.State();
    SetMemory(metrics, reading);
    assert DockerStep(before, output, valueUnit) == Step(WithMemory(before, reading), Success);
    return Success;
  }

  /** `parseLinuxMemory`: stops at the first "Mem:" line; always nil. */
  method ParseLinuxMemory(output: string, metrics: SystemMetrics, parseFloat: string -> Option<real>)
    returns (status: Status)
    modifies metrics
    ensures status == Success
    ensures metrics.State() == ApplyMemory(old(metrics.State()), LinuxMemory(output, parseFloat))
  {
    var lines := Split(output, '\n');
    var i := 0;
    while i < |lines|
      invariant 0 <= i <= |lines|
      invariant FirstMemLine(lines) == FirstMemLine(lines[i..])
      invariant metrics.State() == old(metrics.State())
    {
      var line := lines[i];
      if HasPrefix(line, "Mem:") {
        var fields := Fields(line);
        if |fields| >= 7 {
          var total := parseFloat(fields[1]).GetOr(0.0);
          var used := parseFloat(fields[2]).GetOr(0.0);
          var free := parseFloat(fields[3]).GetOr(0.0);
          assert MemLine(line, parseFloat) == Some(Memory(total, used, free));
          SetMemory(metrics, Memory(total, used, free));
        }
        break;
      }
      assert lines[i..][1..] == lines[i + 1..];
      i := i + 1;
    }
    return Success;
  }

  /** `parseMacOSMemory`: always nil. */
  method ParseMacOSMemory(output: string, metrics: SystemMetrics, sscanf: (string, string) -> Option<real>)
    returns (status: Status)
    modifies metrics
    ensures status == Success
    ensures metrics.State() == WithMemory(old(metrics.State()), MacOSMemory(output, sscanf))
  {
    var free, active, inactive, wired := 0.0, 0.0, 0.0, 0.0;
    var lines := Split(output, '\n');
    for i := 0 to |lines|
      invariant Pages(free, active, inactive, wired) == PagesOf(Pages(0.0, 0.0, 0.0, 0.0), lines[..i], sscanf)
    {
      assert lines[..i + 1][..i] == lines[..i];
      var line := lines[i];
      if Contains(line, "Pages free:") {
        free := sscanf("Pages free: %f", line).GetOr(free);
      } else if Contains(line, "Pages active:") {
        active := sscanf("Pages active: %f", line).GetOr(active);
      } else if Contains(line, "Pages inactive:") {
        inactive := sscanf("Pages inactive: %f", line).GetOr(inactive);
      } else if Contains(line, "Pages wired down:") {
        wired := sscanf("Pages wired down: %f", line).GetOr(wired);
      }
    }
    assert lines[..|lines|] == lines;
    var freeMB := (free * PageSize) / (1024.0 * 1024.0);
    var usedMB := ((active + inactive + wired) * PageSize) / (1024.0 * 1024.0);
    var totalMB := freeMB + usedMB;
    assert MacOSMemory(output, sscanf) == Memory(totalMB, usedMB, freeMB);
    SetMemory(metrics, Memory(totalMB, usedMB, freeMB));
    return Success;
  }

  /** `collectLoadAverage`. */
  method CollectLoadAverage(m: Monitor, metrics: SystemMetrics, run: Runner, sscanf: (string, string) -> Option<real>)
    returns (status: Status)
    modifies metrics
    ensures Step(metrics.State(), status) == CollectLoad(m, run, sscanf, old(metrics.State()))
  {
    var output := run(UptimeCommand(m));
    if output.Err? {
      return Failure(CommandFailed(output.error));
    }
    var uptime := output.value;
    ghost var before := metrics.State();
    var idx := Index(uptime, LoadLabel);
    assert LoadAverage(before, uptime, sscanf) == LoadAt(before, uptime, idx, sscanf);
    if idx >= 0 {
      if idx + 14 > |uptime| {
        return Panic;
      }
      ScanLoadsInto(metrics, uptime[idx + 14..], sscanf);
    }
    return Success;
  }

  /** The scan of the three loads after the label into the record. */
  method ScanLoadsInto(metrics: SystemMetrics, text: string, sscanf: (string, string) -> Option<real>)
    modifies metrics
    ensures metrics.State() == ScanLoads(old(metrics.State()), text, sscanf)
  {
    var loads := Split(TrimSpace(text), ',');
    if |loads| >= 3 {
      metrics.loadAverage1Min := sscanf("%f", TrimSpace(loads[0])).GetOr(metrics.loadAverage1Min);
      metrics.loadAverage5Min := sscanf("%f", TrimSpace(loads[1])).GetOr(metrics.loadAverage5Min);
      metrics.loadAverage15Min := sscanf("%f", TrimSpace(loads[2])).GetOr(metrics.loadAverage15Min);
    }
  }

  /** `collectCPUMetrics`. */
  method CollectCPUMetrics(m: Monitor, goos: string, metrics: SystemMetrics, run: Runner, sc: Scanners)
    returns (status: Status)
    modifies metrics
    ensures Step(metrics.State(), status) == CollectCPU(m, goos, run, sc, old(metrics.State()))
  {
    var cmd := CPUCommand(m, goos);
    if cmd.Err? {
      return Failure(cmd.error);
    }
    var output := run(cmd.value);
    if output.Err? {
      return Failure(CommandFailed(output.error));
    }
    var cpuStr := TrimSpace(output.value);
    cpuStr := TrimSuffix(cpuStr, "%");
    cpuStr := TrimSuffix(cpuStr, "us");
    var cpuUsage := sc.parseFloat(cpuStr);
    if cpuUsage.None? {
      return Failure(BadCPUValue(cpuStr));
    }
    metrics.cpuUsagePercent := cpuUsage.value;
    if goos != "windows" {
      var load := CollectLoadAverage(m, metrics, run, sc.sscanf);
      if load.Panic? {
        return Panic;
      }
    }
    return Success;
  }

  /** `collectMemoryMetrics`. */
  method CollectMemoryMetrics(m: Monitor, goos: string, metrics: SystemMetrics, run: Runner, sc: Scanners)
    returns (status: Status)
    modifies metrics
    ensures Step(metrics.State(), status) == CollectMemory(m, goos, run, sc, old(metrics.State()))
  {
    var cmd := MemoryCommand(m, goos);
    if cmd.Err? {
      return Failure(cmd.error);
    }
    var output := run(cmd.value);
    if output.Err? {
      return Failure(CommandFailed(output.error));
    }
    if m.isDocker {
      status := ParseDockerMemory(output.value, metrics, sc.valueUnit);
    } else if goos == "linux" || m.targetHost != "" {
      status := ParseLinuxMemory(output.value, metrics, sc.parseFloat);
    } else if goos == "darwin" {
      status := ParseMacOSMemory(output.value, metrics, sc.sscanf);
    } else {
      status := Success;
    }
  }

  /** `collectConnectionMetrics`. */
  method CollectConnectionMetrics(m: Monitor, goos: string, metrics: SystemMetrics, run: Runner)
    returns (status: Status)
    modifies metrics
    ensures Step(metrics.State(), status) == CollectConnections(m, goos, run, old(metrics.State()))
  {
    var cmd := ConnectionCommand(m, goos);
    if cmd.Err? {
      return Failure(cmd.error);
    }
    var output := run(cmd.value);
    if output.Err? {
      return Failure(CommandFailed(output.error));
    }
    var count := Atoi(TrimSpace(output.value));
    if count.None? {
      return Failure(BadConnectionCount(TrimSpace(output.value)));
    }
    metrics.tcpEstablished := count.value;
    metrics.tcpConnections := count.value;
    return Success;
  }

  /** `CollectMetrics`: a new record, or the fatal error. */
  method CollectMetrics(m: Monitor, goos: string, now: int, cores: int, run: Runner, sc: Scanners)
    returns (metrics: SystemMetrics?, err: Option<MetricsError>)
    ensures Collect(m, goos, now, cores, run, sc).Err? ==>
      metrics == null && err == Some(Collect(m, goos, now, cores, run, sc).error)
    ensures Collect(m, goos, now, cores, run, sc).Ok? ==>
      metrics != null && err == None && metrics.State() == Collect(m, goos, now, cores, run, sc).value
  {
    var record := new SystemMetrics(now, cores);
    var status := CollectCPUMetrics(m, goos, record, run, sc);
    if status.Panic? {
      return null, Some(Panicked);
    }
    if status.Failure? {
      return null, Some(CPUFailed(status.cause));
    }
    status := CollectMemoryMetrics(m, goos, record, run, sc);
    if status.Failure? {
      return null, Some(MemoryFailed(status.cause));
    }
    // collectNetworkMetrics always returns nil and writes nothing.
    status := CollectConnectionMetrics(m, goos, record, run);
    return record, None;
  }
}
