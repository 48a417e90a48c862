/**
 `compute_hash`: the text that is hashed into the ledger, and exactly what it determines
 (crates/context-budget/src/ledger.rs).
 */
module LedgerDigest {
  import opened Machine
  import opened Texts
  import opened Order
  import opened Items
  import opened Budgeting
  import opened Ladder
  import opened Planner
  import opened PlannerOrder

  // ------------------------------------------------------------------------- the text

  function PartName(part: ItemKind): string {
    match part
    case SafetyPolicy => "safety_policy"
    case ApprovalPolicy => "approval_policy"
    case UserPrompt => "user_prompt"
    case PendingToolCall => "pending_tool_call"
    case _ => "cancellation"
  }

  function LevelName(level: LadderLevel): string {
    match level
    case ExpiredDuplicateSuperseded => "l1_expired_duplicate_superseded"
    case LowPriorityOptional => "l2_low_priority_optional"
    case StaleToolOutputs => "l3_stale_tool_outputs"
    case OffloadLargeItems => "l4_offload_large_items"
    case CompressHistory => "l5_compress_history"
    case ReleaseOptionalReserves => "l6_release_optional_reserves"
  }

  function StageName(stage: Stage): string {
    match stage
    case MandatoryOverflow => "mandatory_overflow"
    case DropsExhausted => "drops_exhausted"
    case ProviderReplanFailed => "provider_replan_failed"
    case EstimatorUnavailable => "estimator_unavailable"
  }

  function Field(key: string, value: string): string {
    key + "=" + value + "\n"
  }

  /** Lines one below the other. */
  function Lines(lines: seq<string>): string {
    if lines == [] then "" else lines[0] + ['\n'] + Lines(lines[1..])
  }

  function Colon(a: string, b: string): string {
    a + [':'] + b
  }

  function PartLine(p: PartRecord): string {
    "  " + Colon(PartName(p.part), Colon(Decimal(p.items), Decimal(p.tokens)))
  }

  function SelectedLine(i: nat, r: SelectedRecord): string {
    "  " + Colon(Decimal(i), Colon(r.id, Decimal(r.tokens)))
  }

  function SelectedLines(items: seq<SelectedRecord>): (lines: seq<string>)
    ensures |lines| == |items| && forall i :: 0 <= i < |items| ==> lines[i] == SelectedLine(i, items[i])
  {
    seq(|items|, i requires 0 <= i < |items| => SelectedLine(i, items[i]))
  }

  function DroppedLine(r: DroppedRecord): string {
    "  " + Colon(r.id, ReasonName(r.reason))
  }

  function LevelLine(level: LadderLevel): string {
    "  " + LevelName(level)
  }

  function Mode(fallback: bool): string {
    if fallback then "fallback" else "model"
  }

  function CompressionLine(s: SummaryOutcome): string {
    "  " + Colon(s.summaryId, Colon(Joined(s.sourceIds), Colon(s.summarizerVersion, Mode(s.fallback))))
  }

  function LoadoutLine(l: Loadout): string {
    "  " + Colon(l.id, Colon(l.intent, Colon(l.rulesVersion, Joined(l.toolIds))))
  }

  function LoadoutLines(l: Option<Loadout>): seq<string> {
    if l.None? then [] else [LoadoutLine(l.value)]
  }

  function BudgetLine(l: Ledger): string {
    "  " + Colon(Decimal(l.mandatoryTokens), Colon(Decimal(l.selectedOptionalTokens), Decimal(l.reservesTokens)))
  }

  function MissingName(part: Option<ItemKind>): string {
    if part.Some? then PartName(part.value) else "none"
  }

  function RefusalText(u: Option<Unavailable>): string {
    if u.None? then "" else "unavailable " + Colon(StageName(u.value.stage), MissingName(u.value.missingPart)) + "\n"
  }

  function BudgetText(l: Ledger): string {
    "budget\n" + (BudgetLine(l) + ['\n'] + RefusalText(l.unavailable))
  }

  function LoadoutText(l: Ledger): string {
    "loadout\n" + (Lines(LoadoutLines(l.loadout)) + BudgetText(l))
  }

  function CompressionText(l: Ledger): string {
    "compression\n" + (Lines(Map(CompressionLine, l.compression)) + LoadoutText(l))
  }

  function LadderText(l: Ledger): string {
    "ladder\n" + (Lines(Map(LevelLine, l.levelsApplied)) + CompressionText(l))
  }

  function DroppedText(l: Ledger): string {
    "dropped\n" + (Lines(Map(DroppedLine, SortBy(RecordKey, l.droppedItems))) + LadderText(l))
  }

  function SelectedText(l: Ledger): string {
    "selected\n" + (Lines(SelectedLines(l.selectedItems)) + DroppedText(l))
  }

  function MandatoryText(l: Ledger): string {
    "mandatory\n" + (Lines(Map(PartLine, l.mandatoryParts)) + SelectedText(l))
  }

  function FallbackField(l: Ledger): string {
    Field("fallback_estimator", if l.fallbackEstimator then "1" else "0")
  }

  function OutcomeField(l: Ledger): string {
    Field("outcome", if l.sent then "sent" else "budget_unavailable")
  }

  function FlagsText(l: Ledger): string {
    FallbackField(l) + (OutcomeField(l) + MandatoryText(l))
  }

  const FIXED_VERSIONS: string := Field("normalizer", "norm-1") + Field("strategy", "strategy-1")

  function VersionsText(l: Ledger): string {
    Field("profile", l.profileVersion) + (Field("tokenizer", l.tokenizerVersion) + (FIXED_VERSIONS + FlagsText(l)))
  }

  /** The input of the hash. */
  function DigestText(l: Ledger): string {
    "v1\n" + VersionsText(l)
  }

  // ------------------------------------------------------------------- reading the text back

  lemma FirstColon(a: string, b: string, x: string, y: string)
    requires ':' !in a && ':' !in b && Colon(a, x) == Colon(b, y)
    ensures a == b && x == y
  {
    FirstMark(':', a, b, x, y);
  }

  /** A word after the last colon can be told from what stands before it. */
  lemma LastColon(a: string, b: string, d: string, e: string)
    requires ':' !in d && ':' !in e && Colon(a, d) == Colon(b, e)
    ensures a == b && d == e
  {
    var l, r := Colon(a, d), Colon(b, e);
    assert l[|a|] == ':' && r[|b|] == ':';
    assert forall i :: |a| < i < |l| ==> l[i] == d[i - |a| - 1] && d[i - |a| - 1] in d;
    assert forall i :: |b| < i < |r| ==> r[i] == e[i - |b| - 1] && e[i - |b| - 1] in e;
    assert |a| == |b|;
    Strip(a + [':'], b + [':'], d, e);
    Strip(a, b, [':'], [':']);
  }

  lemma FieldUnique(key: string, v: string, w: string, x: string, y: string)
    requires '\n' !in key && '\n' !in v && '\n' !in w && Field(key, v) + x == Field(key, w) + y
    ensures v == w && x == y
  {
    var p := key + "=";
    assert Field(key, v) + x == (p + v) + ['\n'] + x && Field(key, w) + y == (p + w) + ['\n'] + y;
    FirstMark('\n', p + v, p + w, x, y);
    Strip(p, p, v, w);
  }

  lemma DigitsOnly(n: nat)
    ensures '\n' !in Decimal(n) && ':' !in Decimal(n)
  {
    DecimalDigits(n);
  }

  /** Indented, and on one line. */
  predicate IsLine(s: string) {
    s != [] && s[0] == ' ' && '\n' !in s
  }

  ghost predicate AreLines(lines: seq<string>) {
    forall i :: 0 <= i < |lines| ==> IsLine(lines[i])
  }

  predicate IsHeading(x: string) {
    x != [] && x[0] != ' '
  }

  lemma LinesUnfold(lines: seq<string>, x: string)
    requires lines != []
    ensures Lines(lines) + x == lines[0] + ['\n'] + (Lines(lines[1..]) + x)
  {
    Assoc(lines[0] + ['\n'], Lines(lines[1..]), x);
  }

  lemma LinesBegin(lines: seq<string>, x: string)
    requires AreLines(lines) && IsHeading(x)
    ensures (Lines(lines) + x)[0] == ' ' <==> lines != []
  {
    if lines != [] { LinesUnfold(lines, x); }
  }

  /** A block of indented lines can be told from the heading that follows it. */
  lemma {:induction false} LinesUnique(a: seq<string>, b: seq<string>, x: string, y: string)
    requires AreLines(a) && AreLines(b) && IsHeading(x) && IsHeading(y) && Lines(a) + x == Lines(b) + y
    ensures a == b && x == y
  {
    LinesBegin(a, x);
    LinesBegin(b, y);
    if a == [] {
      assert Lines(a) + x == x && Lines(b) + y == y;
    } else {
      LinesUnfold(a, x);
      LinesUnfold(b, y);
      FirstMark('\n', a[0], b[0], Lines(a[1..]) + x, Lines(b[1..]) + y);
      LinesUnique(a[1..], b[1..], x, y);
      HeadTail(a);
      HeadTail(b);
    }
  }

  lemma BlockUnique(heading: string, a: seq<string>, b: seq<string>, x: string, y: string)
    requires AreLines(a) && AreLines(b) && IsHeading(x) && IsHeading(y)
    requires heading + (Lines(a) + x) == heading + (Lines(b) + y)
    ensures a == b && x == y
  {
    Strip(heading, heading, Lines(a) + x, Lines(b) + y);
    LinesUnique(a, b, x, y);
  }

  /** Entries whose lines differ whenever they do can be read back. */
  lemma EntriesUnique<T>(line: T -> string, a: seq<T>, b: seq<T>)
    requires Map(line, a) == Map(line, b)
    requires forall x, y :: x in a && y in b && line(x) == line(y) ==> x == y
    ensures a == b
  {
    assert |a| == |Map(line, a)| == |b|;
    forall i | 0 <= i < |a| ensures a[i] == b[i] {
      assert Map(line, a)[i] == Map(line, b)[i];
      assert a[i] in a && b[i] in b;
    }
  }

  // ------------------------------------------------------------------- reading the lines back

  lemma Indented(a: string, b: string)
    requires "  " + a == "  " + b
    ensures a == b
  {
    Strip("  ", "  ", a, b);
  }

  lemma DecimalsUnique(m: nat, n: nat, x: string, y: string)
    requires Colon(Decimal(m), x) == Colon(Decimal(n), y)
    ensures m == n && x == y
  {
    DigitsOnly(m);
    DigitsOnly(n);
    FirstColon(Decimal(m), Decimal(n), x, y);
    DecimalUnique(m, n);
  }

  lemma SelectedLineUnique(i: nat, r: SelectedRecord, s: SelectedRecord)
    requires SelectedLine(i, r) == SelectedLine(i, s)
    ensures r == s
  {
    var x, y := Colon(r.id, Decimal(r.tokens)), Colon(s.id, Decimal(s.tokens));
    Indented(Colon(Decimal(i), x), Colon(Decimal(i), y));
    DecimalsUnique(i, i, x, y);
    DigitsOnly(r.tokens);
    DigitsOnly(s.tokens);
    LastColon(r.id, s.id, Decimal(r.tokens), Decimal(s.tokens));
    DecimalUnique(r.tokens, s.tokens);
  }

  lemma PartNamesDiffer(p: ItemKind, q: ItemKind)
    requires p in PARTS && q in PARTS && PartName(p) == PartName(q)
    ensures p == q
  {
    assert PartName(p)[0] == PartName(q)[0];
    assert |PartName(p)| == |PartName(q)|;
  }

  lemma PartNameOnLine(p: ItemKind)
    ensures '\n' !in PartName(p)
  {
  }

  lemma PartNameIsWord(p: ItemKind)
    ensures ':' !in PartName(p)
  {
  }

  lemma PartLineUnique(p: PartRecord, q: PartRecord)
    requires p.part in PARTS && q.part in PARTS && PartLine(p) == PartLine(q)
    ensures p == q
  {
    var x, y := Colon(Decimal(p.items), Decimal(p.tokens)), Colon(Decimal(q.items), Decimal(q.tokens));
    Indented(Colon(PartName(p.part), x), Colon(PartName(q.part), y));
    PartNameIsWord(p.part);
    PartNameIsWord(q.part);
    FirstColon(PartName(p.part), PartName(q.part), x, y);
    PartNamesDiffer(p.part, q.part);
    DecimalsUnique(p.items, q.items, Decimal(p.tokens), Decimal(q.tokens));
    DecimalUnique(p.tokens, q.tokens);
  }

  lemma ReasonIsWord(r: DropReason)
    ensures '\n' !in ReasonName(r) && ':' !in ReasonName(r)
  {
  }

  lemma DroppedLineUnique(r: DroppedRecord, s: DroppedRecord)
    requires DroppedLine(r) == DroppedLine(s)
    ensures r == s
  {
    Indented(Colon(r.id, ReasonName(r.reason)), Colon(s.id, ReasonName(s.reason)));
    ReasonIsWord(r.reason);
    ReasonIsWord(s.reason);
    LastColon(r.id, s.id, ReasonName(r.reason), ReasonName(s.reason));
    ReasonNamesDiffer(r.reason, s.reason);
  }

  lemma LevelLineUnique(a: LadderLevel, b: LadderLevel)
    requires LevelLine(a) == LevelLine(b)
    ensures a == b
  {
    Indented(LevelName(a), LevelName(b));
    assert LevelName(a)[1] == LevelName(b)[1];
  }

  lemma EarlyLevelIsWord(level: LadderLevel)
    requires level.ExpiredDuplicateSuperseded? || level.LowPriorityOptional? || level.StaleToolOutputs?
    ensures '\n' !in LevelName(level)
  {
  }

  lemma LateLevelIsWord(level: LadderLevel)
    requires level.OffloadLargeItems? || level.CompressHistory? || level.ReleaseOptionalReserves?
    ensures '\n' !in LevelName(level)
  {
  }

  lemma LevelIsWord(level: LadderLevel)
    ensures '\n' !in LevelName(level)
  {
    if level.OffloadLargeItems? || level.CompressHistory? || level.ReleaseOptionalReserves? {
      LateLevelIsWord(level);
    } else {
      EarlyLevelIsWord(level);
    }
  }

  lemma BudgetLineUnique(l: Ledger, m: Ledger)
    requires BudgetLine(l) == BudgetLine(m)
    ensures l.mandatoryTokens == m.mandatoryTokens && l.selectedOptionalTokens == m.selectedOptionalTokens
    ensures l.reservesTokens == m.reservesTokens
  {
    var x := Colon(Decimal(l.selectedOptionalTokens), Decimal(l.reservesTokens));
    var y := Colon(Decimal(m.selectedOptionalTokens), Decimal(m.reservesTokens));
    Indented(Colon(Decimal(l.mandatoryTokens), x), Colon(Decimal(m.mandatoryTokens), y));
    DecimalsUnique(l.mandatoryTokens, m.mandatoryTokens, x, y);
    DecimalsUnique(l.selectedOptionalTokens, m.selectedOptionalTokens, Decimal(l.reservesTokens),
                   Decimal(m.reservesTokens));
    DecimalUnique(l.reservesTokens, m.reservesTokens);
  }

  lemma StageNamesDiffer(a: Stage, b: Stage)
    requires StageName(a) == StageName(b)
    ensures a == b
  {
    assert StageName(a)[0] == StageName(b)[0];
  }

  lemma StageIsWord(stage: Stage)
    ensures ':' !in StageName(stage)
  {
  }

  lemma MissingNamesDiffer(a: Option<ItemKind>, b: Option<ItemKind>)
    requires (a.Some? ==> a.value in PARTS) && (b.Some? ==> b.value in PARTS) && MissingName(a) == MissingName(b)
    ensures a == b
  {
    if a.Some? && b.Some? {
      PartNamesDiffer(a.value, b.value);
    } else {
      assert MissingName(a)[0] == MissingName(b)[0];
    }
  }

  lemma RefusalUnique(u: Option<Unavailable>, v: Option<Unavailable>)
    requires u.Some? && u.value.missingPart.Some? ==> u.value.missingPart.value in PARTS
    requires v.Some? && v.value.missingPart.Some? ==> v.value.missingPart.value in PARTS
    requires RefusalText(u) == RefusalText(v)
    ensures DigestedRefusal(u) == DigestedRefusal(v)
  {
    assert u.Some? ==> RefusalText(u) != "";
    assert v.Some? ==> RefusalText(v) != "";
    if u.Some? {
      var s, t := StageName(u.value.stage), StageName(v.value.stage);
      var a, b := MissingName(u.value.missingPart), MissingName(v.value.missingPart);
      RefusalWords(Colon(s, a), Colon(t, b));
      StageIsWord(u.value.stage);
      StageIsWord(v.value.stage);
      FirstColon(s, t, a, b);
      StageNamesDiffer(u.value.stage, v.value.stage);
      MissingNamesDiffer(u.value.missingPart, v.value.missingPart);
    }
  }

  lemma RefusalWords(a: string, b: string)
    requires "unavailable " + a + "\n" == "unavailable " + b + "\n"
    ensures a == b
  {
    assert |"unavailable " + a + "\n"| == |"unavailable " + b + "\n"|;
    Strip("unavailable " + a, "unavailable " + b, "\n", "\n");
    Strip("unavailable ", "unavailable ", a, b);
  }

  // --------------------------------------------------------------- what the text determines

  ghost predicate OneLine(texts: seq<string>) {
    forall t :: t in texts ==> '\n' !in t
  }

  /** Everything that goes into the line of the compression or the loadout fits on it. */
  ghost predicate SummaryPrintable(s: SummaryOutcome) {
    '\n' !in s.summaryId && OneLine(s.sourceIds) && '\n' !in s.summarizerVersion
  }

  ghost predicate LoadoutPrintable(l: Loadout) {
    '\n' !in l.id && '\n' !in l.intent && '\n' !in l.rulesVersion && OneLine(l.toolIds)
  }

  /** Versions and ids that fit on a line, and parts that are mandatory ones. */
  ghost predicate Printable(l: Ledger) {
    && '\n' !in l.profileVersion && '\n' !in l.tokenizerVersion
    && (forall p :: p in l.mandatoryParts ==> p.part in PARTS)
    && (forall r :: r in l.selectedItems ==> '\n' !in r.id)
    && (forall r :: r in l.droppedItems ==> '\n' !in r.id)
    && (forall s :: s in l.compression ==> SummaryPrintable(s))
    && (l.loadout.Some? ==> LoadoutPrintable(l.loadout.value))
    && (l.unavailable.Some? && l.unavailable.value.missingPart.Some? ==> l.unavailable.value.missingPart.value in PARTS)
  }

  lemma {:induction false} JoinedIsLine(ids: seq<string>)
    requires OneLine(ids)
    ensures '\n' !in Joined(ids)
  {
    if |ids| == 1 {
      assert ids[0] in ids;
    } else if ids != [] {
      assert ids[0] in ids;
      JoinedIsLine(ids[1..]);
    }
  }

  lemma PartLinesAreLines(l: Ledger)
    ensures AreLines(Map(PartLine, l.mandatoryParts))
  {
    forall i | 0 <= i < |l.mandatoryParts| ensures IsLine(PartLine(l.mandatoryParts[i])) {
      var p := l.mandatoryParts[i];
      DigitsOnly(p.items);
      DigitsOnly(p.tokens);
      PartNameOnLine(p.part);
    }
  }

  lemma SelectedLinesAreLines(l: Ledger)
    requires Printable(l)
    ensures AreLines(SelectedLines(l.selectedItems))
  {
    var items := l.selectedItems;
    forall i | 0 <= i < |items| ensures IsLine(SelectedLine(i, items[i])) {
      assert items[i] in items;
      DigitsOnly(i);
      DigitsOnly(items[i].tokens);
    }
  }

  lemma DroppedLinesAreLines(l: Ledger)
    requires Printable(l)
    ensures AreLines(Map(DroppedLine, SortBy(RecordKey, l.droppedItems)))
  {
    var records := SortBy(RecordKey, l.droppedItems);
    SortPermutes(By(RecordKey), l.droppedItems);
    forall i | 0 <= i < |records| ensures IsLine(DroppedLine(records[i])) {
      assert records[i] in records;
      ReasonIsWord(records[i].reason);
    }
  }

  lemma LevelLinesAreLines(l: Ledger)
    ensures AreLines(Map(LevelLine, l.levelsApplied))
  {
    forall i | 0 <= i < |l.levelsApplied| ensures IsLine(LevelLine(l.levelsApplied[i])) {
      LevelIsWord(l.levelsApplied[i]);
    }
  }

  lemma ColonOnLine(a: string, b: string)
    requires '\n' !in a && '\n' !in b
    ensures '\n' !in Colon(a, b)
  {
  }

  lemma IndentedIsLine(s: string)
    requires '\n' !in s
    ensures IsLine("  " + s)
  {
  }

  lemma ModeIsWord(fallback: bool)
    ensures '\n' !in Mode(fallback) && ':' !in Mode(fallback)
  {
  }

  lemma CompressionLineIsLine(s: SummaryOutcome)
    requires SummaryPrintable(s)
    ensures IsLine(CompressionLine(s))
  {
    var mode := Mode(s.fallback);
    ModeIsWord(s.fallback);
    ColonOnLine(s.summarizerVersion, mode);
    JoinedIsLine(s.sourceIds);
    ColonOnLine(Joined(s.sourceIds), Colon(s.summarizerVersion, mode));
    ColonOnLine(s.summaryId, Colon(Joined(s.sourceIds), Colon(s.summarizerVersion, mode)));
    IndentedIsLine(Colon(s.summaryId, Colon(Joined(s.sourceIds), Colon(s.summarizerVersion, mode))));
  }

  lemma CompressionLinesAreLines(l: Ledger)
    requires Printable(l)
    ensures AreLines(Map(CompressionLine, l.compression))
  {
    forall i | 0 <= i < |l.compression| ensures IsLine(CompressionLine(l.compression[i])) {
      assert l.compression[i] in l.compression;
      CompressionLineIsLine(l.compression[i]);
    }
  }

  lemma LoadoutLinesAreLines(l: Ledger)
    requires Printable(l)
    ensures AreLines(LoadoutLines(l.loadout))
  {
    if l.loadout.Some? { JoinedIsLine(l.loadout.value.toolIds); }
  }

  lemma BudgetLineIsLine(l: Ledger)
    ensures '\n' !in BudgetLine(l)
  {
    DigitsOnly(l.mandatoryTokens);
    DigitsOnly(l.selectedOptionalTokens);
    DigitsOnly(l.reservesTokens);
  }

  /** What the text shows, line by line. */
  ghost predicate SameVersions(l: Ledger, m: Ledger) {
    && l.profileVersion == m.profileVersion && l.tokenizerVersion == m.tokenizerVersion
    && l.fallbackEstimator == m.fallbackEstimator && l.sent == m.sent
  }

  ghost predicate SameItemRecords(l: Ledger, m: Ledger) {
    && l.mandatoryParts == m.mandatoryParts && l.selectedItems == m.selectedItems
    && multiset(l.droppedItems) == multiset(m.droppedItems)
  }

  ghost predicate SameReduction(l: Ledger, m: Ledger) {
    && l.levelsApplied == m.levelsApplied
    && Map(CompressionLine, l.compression) == Map(CompressionLine, m.compression)
    && LoadoutLines(l.loadout) == LoadoutLines(m.loadout)
  }

  ghost predicate SameBudget(l: Ledger, m: Ledger) {
    && l.mandatoryTokens == m.mandatoryTokens && l.selectedOptionalTokens == m.selectedOptionalTokens
    && l.reservesTokens == m.reservesTokens && DigestedRefusal(l.unavailable) == DigestedRefusal(m.unavailable)
  }

  ghost predicate SameLines(l: Ledger, m: Ledger) {
    SameVersions(l, m) && SameItemRecords(l, m) && SameReduction(l, m) && SameBudget(l, m)
  }

  lemma BudgetRead(l: Ledger, m: Ledger)
    requires Printable(l) && Printable(m) && BudgetText(l) == BudgetText(m)
    ensures SameBudget(l, m)
  {
    var x, y := RefusalText(l.unavailable), RefusalText(m.unavailable);
    Strip("budget\n", "budget\n", BudgetLine(l) + ['\n'] + x, BudgetLine(m) + ['\n'] + y);
    BudgetLineIsLine(l);
    BudgetLineIsLine(m);
    FirstMark('\n', BudgetLine(l), BudgetLine(m), x, y);
    BudgetLineUnique(l, m);
    RefusalUnique(l.unavailable, m.unavailable);
  }

  lemma ReductionRead(l: Ledger, m: Ledger)
    requires Printable(l) && Printable(m) && LadderText(l) == LadderText(m)
    ensures SameReduction(l, m) && BudgetText(l) == BudgetText(m)
  {
    LevelLinesAreLines(l);
    LevelLinesAreLines(m);
    BlockUnique("ladder\n", Map(LevelLine, l.levelsApplied), Map(LevelLine, m.levelsApplied), CompressionText(l),
                CompressionText(m));
    forall a, b | LevelLine(a) == LevelLine(b) ensures a == b { LevelLineUnique(a, b); }
    EntriesUnique(LevelLine, l.levelsApplied, m.levelsApplied);
    CompressionLinesAreLines(l);
    CompressionLinesAreLines(m);
    BlockUnique("compression\n", Map(CompressionLine, l.compression), Map(CompressionLine, m.compression),
                LoadoutText(l), LoadoutText(m));
    LoadoutLinesAreLines(l);
    LoadoutLinesAreLines(m);
    BlockUnique("loadout\n", LoadoutLines(l.loadout), LoadoutLines(m.loadout), BudgetText(l), BudgetText(m));
  }

  lemma DroppedRead(l: Ledger, m: Ledger)
    requires Printable(l) && Printable(m) && DroppedText(l) == DroppedText(m)
    ensures multiset(l.droppedItems) == multiset(m.droppedItems) && LadderText(l) == LadderText(m)
  {
    var a, b := SortBy(RecordKey, l.droppedItems), SortBy(RecordKey, m.droppedItems);
    DroppedLinesAreLines(l);
    DroppedLinesAreLines(m);
    BlockUnique("dropped\n", Map(DroppedLine, a), Map(DroppedLine, b), LadderText(l), LadderText(m));
    forall r, s | DroppedLine(r) == DroppedLine(s) ensures r == s { DroppedLineUnique(r, s); }
    EntriesUnique(DroppedLine, a, b);
    SortPermutes(By(RecordKey), l.droppedItems);
    SortPermutes(By(RecordKey), m.droppedItems);
  }

  lemma SelectedRead(l: Ledger, m: Ledger)
    requires Printable(l) && Printable(m) && SelectedText(l) == SelectedText(m)
    ensures l.selectedItems == m.selectedItems && DroppedText(l) == DroppedText(m)
  {
    var a, b := l.selectedItems, m.selectedItems;
    SelectedLinesAreLines(l);
    SelectedLinesAreLines(m);
    BlockUnique("selected\n", SelectedLines(a), SelectedLines(b), DroppedText(l), DroppedText(m));
    assert |a| == |SelectedLines(a)| == |b|;
    forall i | 0 <= i < |a| ensures a[i] == b[i] {
      assert SelectedLines(a)[i] == SelectedLines(b)[i];
      SelectedLineUnique(i, a[i], b[i]);
    }
  }

  lemma PartsRead(l: Ledger, m: Ledger)
    requires Printable(l) && Printable(m) && MandatoryText(l) == MandatoryText(m)
    ensures l.mandatoryParts == m.mandatoryParts && SelectedText(l) == SelectedText(m)
  {
    PartLinesAreLines(l);
    PartLinesAreLines(m);
    BlockUnique("mandatory\n", Map(PartLine, l.mandatoryParts), Map(PartLine, m.mandatoryParts), SelectedText(l),
                SelectedText(m));
    forall p, q | p in l.mandatoryParts && q in m.mandatoryParts && PartLine(p) == PartLine(q) ensures p == q {
      PartLineUnique(p, q);
    }
    EntriesUnique(PartLine, l.mandatoryParts, m.mandatoryParts);
  }

  lemma FlagsRead(l: Ledger, m: Ledger)
    requires FlagsText(l) == FlagsText(m)
    ensures l.fallbackEstimator == m.fallbackEstimator && l.sent == m.sent && MandatoryText(l) == MandatoryText(m)
  {
    var f, g := if l.fallbackEstimator then "1" else "0", if m.fallbackEstimator then "1" else "0";
    FieldUnique("fallback_estimator", f, g, OutcomeField(l) + MandatoryText(l), OutcomeField(m) + MandatoryText(m));
    var o, p := if l.sent then "sent" else "budget_unavailable", if m.sent then "sent" else "budget_unavailable";
    FieldUnique("outcome", o, p, MandatoryText(l), MandatoryText(m));
    assert f[0] == g[0] && o[0] == p[0];
  }

  lemma VersionsRead(l: Ledger, m: Ledger)
    requires Printable(l) && Printable(m) && DigestText(l) == DigestText(m)
    ensures SameVersions(l, m) && MandatoryText(l) == MandatoryText(m)
  {
    var x, y := FIXED_VERSIONS + FlagsText(l), FIXED_VERSIONS + FlagsText(m);
    var u, v := Field("tokenizer", l.tokenizerVersion) + x, Field("tokenizer", m.tokenizerVersion) + y;
    Strip("v1\n", "v1\n", VersionsText(l), VersionsText(m));
    FieldUnique("profile", l.profileVersion, m.profileVersion, u, v);
    FieldUnique("tokenizer", l.tokenizerVersion, m.tokenizerVersion, x, y);
    Strip(FIXED_VERSIONS, FIXED_VERSIONS, FlagsText(l), FlagsText(m));
    FlagsRead(l, m);
  }

  lemma SameLinesSameText(l: Ledger, m: Ledger)
    requires SameLines(l, m)
    ensures DigestText(l) == DigestText(m)
  {
    DigestForgetsOrder(l.droppedItems, m.droppedItems);
    SameRefusalText(l.unavailable, m.unavailable);
    assert BudgetLine(l) == BudgetLine(m);
    assert LadderText(l) == LadderText(m);
    assert FlagsText(l) == FlagsText(m);
  }

  lemma SameRefusalText(u: Option<Unavailable>, v: Option<Unavailable>)
    requires DigestedRefusal(u) == DigestedRefusal(v)
    ensures RefusalText(u) == RefusalText(v)
  {
  }

  lemma LinesRead(l: Ledger, m: Ledger)
    requires Printable(l) && Printable(m) && DigestText(l) == DigestText(m)
    ensures SameLines(l, m)
  {
    VersionsRead(l, m);
    PartsRead(l, m);
    SelectedRead(l, m);
    DroppedRead(l, m);
    ReductionRead(l, m);
    BudgetRead(l, m);
  }

  /** If no version and no id contains a newline, two ledgers have the same hashed text if and only if they agree in
      versions, flags, mandatory parts, selected records in order, the bag of dropped records, levels, the lines of
      compressions and loadout, totals, and the stage and missing part of a refusal. */
  lemma DigestExact(l: Ledger, m: Ledger)
    requires Printable(l) && Printable(m)
    ensures DigestText(l) == DigestText(m) <==> SameLines(l, m)
  {
    if DigestText(l) == DigestText(m) { LinesRead(l, m); }
    if SameLines(l, m) { SameLinesSameText(l, m); }
  }

  lemma RecordsTold(l: Ledger, m: Ledger)
    requires Printable(l) && Printable(m) && DigestText(l) == DigestText(m)
    ensures l.selectedItems == m.selectedItems
  {
    DigestExact(l, m);
  }

  // ----------------------------------------------------- reading compressions and loadouts back

  /** A name that neither the colons nor the commas of a line can be taken for. */
  predicate IsName(id: string) {
    IsListed(id) && ':' !in id
  }

  ghost predicate SummarySeparable(s: SummaryOutcome) {
    ':' !in s.summaryId && forall id :: id in s.sourceIds ==> IsName(id)
  }

  ghost predicate LoadoutSeparable(l: Loadout) {
    ':' !in l.id && ':' !in l.intent && ':' !in l.rulesVersion && forall id :: id in l.toolIds ==> IsListed(id)
  }

  lemma {:induction false} JoinedNames(ids: seq<string>)
    requires forall id :: id in ids ==> IsName(id)
    ensures ':' !in Joined(ids)
  {
    if |ids| == 1 {
      assert ids[0] in ids;
    } else if ids != [] {
      assert ids[0] in ids;
      JoinedNames(ids[1..]);
    }
  }

  lemma CompressionLineUnique(r: SummaryOutcome, s: SummaryOutcome)
    requires SummarySeparable(r) && SummarySeparable(s) && CompressionLine(r) == CompressionLine(s)
    ensures DigestedSummary(r) == DigestedSummary(s)
  {
    var v, w := Colon(r.summarizerVersion, Mode(r.fallback)), Colon(s.summarizerVersion, Mode(s.fallback));
    var x, y := Colon(Joined(r.sourceIds), v), Colon(Joined(s.sourceIds), w);
    Indented(Colon(r.summaryId, x), Colon(s.summaryId, y));
    FirstColon(r.summaryId, s.summaryId, x, y);
    JoinedNames(r.sourceIds);
    JoinedNames(s.sourceIds);
    FirstColon(Joined(r.sourceIds), Joined(s.sourceIds), v, w);
    JoinedUnique(r.sourceIds, s.sourceIds);
    LastColon(r.summarizerVersion, s.summarizerVersion, Mode(r.fallback), Mode(s.fallback));
    assert Mode(r.fallback)[0] == Mode(s.fallback)[0];
  }

  lemma LoadoutLineUnique(l: Loadout, m: Loadout)
    requires LoadoutSeparable(l) && LoadoutSeparable(m) && LoadoutLine(l) == LoadoutLine(m)
    ensures DigestedLoadout(Some(l)) == DigestedLoadout(Some(m))
  {
    var v, w := Colon(l.rulesVersion, Joined(l.toolIds)), Colon(m.rulesVersion, Joined(m.toolIds));
    Indented(Colon(l.id, Colon(l.intent, v)), Colon(m.id, Colon(m.intent, w)));
    FirstColon(l.id, m.id, Colon(l.intent, v), Colon(m.intent, w));
    FirstColon(l.intent, m.intent, v, w);
    FirstColon(l.rulesVersion, m.rulesVersion, Joined(l.toolIds), Joined(m.toolIds));
    JoinedUnique(l.toolIds, m.toolIds);
  }

  ghost predicate Separable(l: Ledger) {
    && (forall s :: s in l.compression ==> SummarySeparable(s))
    && (l.loadout.Some? ==> LoadoutSeparable(l.loadout.value))
  }

  lemma CompressionsRead(a: seq<SummaryOutcome>, b: seq<SummaryOutcome>)
    requires (forall s :: s in a ==> SummarySeparable(s)) && (forall s :: s in b ==> SummarySeparable(s))
    requires Map(CompressionLine, a) == Map(CompressionLine, b)
    ensures Map(DigestedSummary, a) == Map(DigestedSummary, b)
  {
    assert |a| == |Map(CompressionLine, a)| == |b|;
    forall i | 0 <= i < |a| ensures DigestedSummary(a[i]) == DigestedSummary(b[i]) {
      assert Map(CompressionLine, a)[i] == Map(CompressionLine, b)[i];
      assert a[i] in a && b[i] in b;
      CompressionLineUnique(a[i], b[i]);
    }
  }

  lemma LoadoutRead(l: Option<Loadout>, m: Option<Loadout>)
    requires (l.Some? ==> LoadoutSeparable(l.value)) && (m.Some? ==> LoadoutSeparable(m.value))
    requires LoadoutLines(l) == LoadoutLines(m)
    ensures DigestedLoadout(l) == DigestedLoadout(m)
  {
    assert l.Some? <==> |LoadoutLines(l)| == 1;
    assert m.Some? <==> |LoadoutLines(m)| == 1;
    if l.Some? {
      assert LoadoutLines(l)[0] == LoadoutLines(m)[0];
      LoadoutLineUnique(l.value, m.value);
    }
  }

  lemma DigestedLines(a: seq<SummaryOutcome>)
    ensures Map(CompressionLine, Map(DigestedSummary, a)) == Map(CompressionLine, a)
  {
  }

  lemma DigestedLoadoutLines(l: Option<Loadout>)
    ensures LoadoutLines(DigestedLoadout(l)) == LoadoutLines(l)
  {
  }

  /** The text sees nothing of a ledger but what its digest input keeps. */
  lemma DigestOfInput(l: Ledger, m: Ledger)
    requires DigestInput(l) == DigestInput(m)
    ensures SameLines(l, m)
  {
    SortPermutes(By(RecordKey), l.droppedItems);
    SortPermutes(By(RecordKey), m.droppedItems);
    DigestedLines(l.compression);
    DigestedLines(m.compression);
    DigestedLoadoutLines(l.loadout);
    DigestedLoadoutLines(m.loadout);
    assert DigestInput(l).droppedItems == DigestInput(m).droppedItems;
    assert DigestInput(l).compression == DigestInput(m).compression;
  }

  /** If, besides, no id can be taken for a colon or a comma of its line, two ledgers have the same hashed text if and
      only if they agree in everything the hash is meant to cover. */
  lemma DigestIdentifies(l: Ledger, m: Ledger)
    requires Printable(l) && Printable(m) && Separable(l) && Separable(m)
    ensures DigestText(l) == DigestText(m) <==> DigestInput(l) == DigestInput(m)
  {
    DigestExact(l, m);
    if DigestInput(l) == DigestInput(m) { DigestOfInput(l, m); }
    if SameLines(l, m) { SameLinesSameInput(l, m); }
  }

  lemma SameLinesSameInput(l: Ledger, m: Ledger)
    requires Separable(l) && Separable(m) && SameLines(l, m)
    ensures DigestInput(l) == DigestInput(m)
  {
    DigestForgetsOrder(l.droppedItems, m.droppedItems);
    CompressionsRead(l.compression, m.compression);
    LoadoutRead(l.loadout, m.loadout);
  }

  /** The order in which dropped items are listed does not reach the hash. */
  lemma DigestTextForgetsOrder(l: Ledger, dropped: seq<DroppedRecord>)
    requires multiset(l.droppedItems) == multiset(dropped)
    ensures DigestText(l) == DigestText(l.(droppedItems := dropped))
  {
    DigestForgetsOrder(l.droppedItems, dropped);
  }

  // --------------------------------------------------------- which ids the lines tell apart

  /** A non-empty text over an alphabet. */
  ghost predicate Over(A: set<char>, s: string) {
    s != "" && forall c :: c in s ==> c in A
  }

  ghost predicate AllOver(A: set<char>, ids: seq<string>) {
    forall id :: id in ids ==> Over(A, id)
  }

  /** Compressions and loadouts with ids over the alphabet are told apart by their lines. */
  ghost predicate LinesTell(A: set<char>) {
    && (forall r, s :: SummaryOver(A, r) && SummaryOver(A, s) && CompressionLine(r) == CompressionLine(s) ==>
          DigestedSummary(r) == DigestedSummary(s))
    && (forall l, m :: LoadoutOver(A, l) && LoadoutOver(A, m) && LoadoutLine(l) == LoadoutLine(m) ==>
          DigestedLoadout(Some(l)) == DigestedLoadout(Some(m)))
  }

  ghost predicate SummaryOver(A: set<char>, s: SummaryOutcome) {
    Over(A, s.summaryId) && AllOver(A, s.sourceIds)
  }

  ghost predicate LoadoutOver(A: set<char>, l: Loadout) {
    Over(A, l.id) && Over(A, l.intent) && Over(A, l.rulesVersion) && AllOver(A, l.toolIds)
  }

  /** Two compressions that differ in what they were made from. */
  lemma LinesConfuse(A: set<char>, r: SummaryOutcome, s: SummaryOutcome)
    requires SummaryOver(A, r) && SummaryOver(A, s) && CompressionLine(r) == CompressionLine(s)
    requires r.summaryId != s.summaryId || r.sourceIds != s.sourceIds
    ensures !LinesTell(A)
  {
    assert DigestedSummary(r) != DigestedSummary(s);
  }

  lemma CommaConfuses(A: set<char>)
    requires ',' in A
    ensures !LinesTell(A)
  {
    var r := SummaryOutcome(",", [",,,"], 0, "v", false, None);
    var s := r.(sourceIds := [",", ","]);
    JoinedHead(s.sourceIds);
    assert s.sourceIds[1..] == [","];
    assert Joined(s.sourceIds) == ",,," == Joined(r.sourceIds);
    LinesConfuse(A, r, s);
  }

  lemma ColonConfuses(A: set<char>)
    requires ':' in A
    ensures !LinesTell(A)
  {
    var r := SummaryOutcome(":", [":::"], 0, "v", false, None);
    var s := SummaryOutcome(":::", [":"], 0, "v", false, None);
    var rest := "v:model";
    assert Colon("v", Mode(false)) == rest;
    assert Colon(":", Colon(":::", rest)) == "::::::" + rest == Colon(":::", Colon(":", rest));
    assert |r.summaryId| != |s.summaryId|;
    LinesConfuse(A, r, s);
  }

  lemma PlainSeparates(A: set<char>)
    requires ',' !in A && ':' !in A
    ensures LinesTell(A)
  {
    forall r, s | SummaryOver(A, r) && SummaryOver(A, s) && CompressionLine(r) == CompressionLine(s)
      ensures DigestedSummary(r) == DigestedSummary(s)
    {
      CompressionLineUnique(r, s);
    }
    forall l, m | LoadoutOver(A, l) && LoadoutOver(A, m) && LoadoutLine(l) == LoadoutLine(m)
      ensures DigestedLoadout(Some(l)) == DigestedLoadout(Some(m))
    {
      LoadoutLineUnique(l, m);
    }
  }

  /** The sources of a summary and the tools of a loadout can be read back from their lines exactly over alphabets
      without comma and colon. */
  lemma SourcesToldExactly(A: set<char>)
    ensures LinesTell(A) <==> ',' !in A && ':' !in A
  {
    if ',' in A {
      CommaConfuses(A);
    } else if ':' in A {
      ColonConfuses(A);
    } else {
      PlainSeparates(A);
    }
  }
}
