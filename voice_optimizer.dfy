/** The voice command processor of the drawing app: recognition results
    pass a confidence gate and a cooldown, are de-duplicated per command and
    second, recorded in a bounded history, and parsed by a priority-ordered
    keyword matcher. The clock is a parameter; the two callbacks (the
    command handler, deferred to the next animation frame, and the message
    display) are modelled as output lists. */
module VoiceOptimizer {
  import opened Options
  import opened Seqs
  import opened Strings

  const ConfidenceThreshold: real := 0.6
  const CommandCooldown: int := 200
  const MaxProcessed: nat := 50
  const MaxHistory: nat := 20

  datatype VoiceCommand =
    | ClearCommand
    | SaveCommand
    | ColorCommand(value: string)
    | BrushTypeCommand(brush: string)
    | ToolCommand(tool: string)
    | SizeCommand(bigger: bool)
    | BackgroundCommand
    | HelpCommand

  datatype HistoryEntry = HistoryEntry(command: string, timestamp: int)

  // ---------------------------------------------------------------------------
  // Keywords

  /** `command` contains one of `words`: a regular expression that is an
      alternation of literals. */
  function Mentions(command: string, words: seq<string>): bool
  {
    |words| > 0 && (Contains(command, words[0]) || Mentions(command, words[1..]))
  }

  /** An alternation matches exactly when one of its words occurs. */
  lemma {:induction false} MentionsMeans(command: string, words: seq<string>)
    ensures Mentions(command, words) <==> exists i :: 0 <= i < |words| && Contains(command, words[i])
  {
    if |words| > 0 {
      MentionsMeans(command, words[1..]);
      assert forall i :: 1 <= i < |words| ==> words[i] == words[1..][i - 1];
      if exists i :: 0 <= i < |words| && Contains(command, words[i]) {
        var i :| 0 <= i < |words| && Contains(command, words[i]);
        if i > 0 {
          assert Contains(command, words[1..][i - 1]);
        }
      }
    }
  }

  const QuickCommands: seq<string> := ["清空", "保存", "红色", "蓝色", "绿色"]
  const CommonCommands: seq<string> :=
    ["清空", "保存", "红色", "蓝色", "绿色", "白色", "黄色", "发光", "霓虹", "背景", "画笔", "橡皮"]

  /** `isQuickCommand`: exactly one of the quick commands, each of which
      is also a common command. */
  predicate IsQuickCommand(command: string)
    ensures IsQuickCommand(command) ==> IsCommonCommand(command)
  {
    if command in QuickCommands then QuickIsCommon(command); true else false
  }

  /** `isCommonCommand`: some common command occurs in the text. */
  predicate IsCommonCommand(command: string)
    ensures IsCommonCommand(command) <==>
      exists i :: 0 <= i < |CommonCommands| && Contains(command, CommonCommands[i])
  {
    MentionsMeans(command, CommonCommands);
    Mentions(command, CommonCommands)
  }

  /** A quick command is always a common one. */
  lemma QuickIsCommon(command: string)
    requires command in QuickCommands
    ensures Mentions(command, CommonCommands)
  {
    var i :| 0 <= i < |QuickCommands| && QuickCommands[i] == command;
    assert CommonCommands[i] == command;
    assert command[0..|command|] == command;
    assert OccursAt(command, CommonCommands[i], 0);
    ContainsMeans(command, CommonCommands[i]);
    MentionsMeans(command, CommonCommands);
  }

  const ClearWords: seq<string> := ["清空", "清除", "clear", "clean"]
  const SaveWords: seq<string> := ["保存", "下载", "save", "拍照"]
  const BiggerWords: seq<string> := ["大", "bigger", "增大"]
  const SmallerWords: seq<string> := ["小", "smaller", "减小"]
  const BackgroundWords: seq<string> := ["背景", "画布", "template", "换", "切换"]
  const HelpWords: seq<string> := ["帮助", "help"]

  /** Keyed groups of keywords, tried in order. */
  type Rules = seq<(string, seq<string>)>

  const ColorRules: Rules := [
    ("red", ["红色", "red"]),
    ("blue", ["蓝色", "blue"]),
    ("green", ["绿色", "green"]),
    ("white", ["白色", "white"]),
    ("yellow", ["黄色", "yellow"]),
    ("purple", ["紫色", "purple"]),
    ("pink", ["粉色", "pink"])
  ]

  const BrushRules: Rules := [
    ("glow", ["发光", "glow"]),
    ("neon", ["霓虹", "neon"]),
    ("particle", ["粒子", "particle"]),
    ("rainbow", ["彩虹", "rainbow"]),
    ("spray", ["喷雾", "spray"]),
    ("normal", ["普通", "normal"]),
    ("3d", ["3d"])
  ]

  const ToolRules: Rules := [
    ("eraser", ["橡皮", "擦除", "eraser"]),
    ("brush", ["画笔", "brush"])
  ]

  const ColorMap: map<string, string> := map[
    "红色" := "#ff0040", "蓝色" := "#00ffff", "绿色" := "#39ff14", "白色" := "#ffffff",
    "黄色" := "#ffff00", "紫色" := "#b000ff", "粉色" := "#ff10f0",
    "red" := "#ff0040", "blue" := "#00ffff", "green" := "#39ff14", "white" := "#ffffff",
    "yellow" := "#ffff00", "purple" := "#b000ff", "pink" := "#ff10f0"
  ]

  const BrushNames: map<string, string> := map[
    "glow" := "发光", "neon" := "霓虹", "3d" := "3D", "particle" := "粒子",
    "rainbow" := "彩虹", "spray" := "喷雾", "normal" := "普通"
  ]

  const ToolNames: map<string, string> := map["eraser" := "橡皮擦", "brush" := "画笔"]

  /** Every rule key has its colour value and display name. */
  lemma KeysMapped()
    ensures forall i :: 0 <= i < |ColorRules| ==> ColorRules[i].0 in ColorMap
    ensures forall i :: 0 <= i < |BrushRules| ==> BrushRules[i].0 in BrushNames
    ensures forall i :: 0 <= i < |ToolRules| ==> ToolRules[i].0 in ToolNames
  {
    forall i | 0 <= i < |ColorRules| ensures ColorRules[i].0 in ColorMap {
      assert ColorRules[i].0 in ["red", "blue", "green", "white", "yellow", "purple", "pink"];
    }
    forall i | 0 <= i < |BrushRules| ensures BrushRules[i].0 in BrushNames {
      assert BrushRules[i].0 in ["glow", "neon", "particle", "rainbow", "spray", "normal", "3d"];
    }
  }

  /** Rule `i` is the first rule whose keywords occur in `command`. */
  ghost predicate FirstRuleAt(command: string, rules: Rules, i: int)
  {
    0 <= i < |rules| && Mentions(command, rules[i].1)
    && forall j :: 0 <= j < i ==> !Mentions(command, rules[j].1)
  }

  /** The index of the first matching rule at or after `from`, or -1. */
  function FirstRule(command: string, rules: Rules, from: nat): (i: int)
    requires from <= |rules|
    ensures -1 <= i < |rules|
    ensures i >= 0 ==> (from <= i && Mentions(command, rules[i].1)
                        && forall j :: from <= j < i ==> !Mentions(command, rules[j].1))
    ensures i == -1 ==> forall j :: from <= j < |rules| ==> !Mentions(command, rules[j].1)
    decreases |rules| - from
  {
    if from == |rules| then -1
    else if Mentions(command, rules[from].1) then from
    else FirstRule(command, rules, from + 1)
  }

  /** `command` matches some rule. */
  predicate MentionsAny(command: string, rules: Rules)
  {
    FirstRule(command, rules, 0) >= 0
  }

  /** What `parseCommand` returns and shows. */
  datatype Parsed = Parsed(command: Option<VoiceCommand>, message: Option<string>)

  /** Some keyword of some command occurs in `command`. */
  predicate AnyKeyword(command: string)
  {
    || Mentions(command, ClearWords) || Mentions(command, SaveWords) || MentionsAny(command, ColorRules)
    || MentionsAny(command, BrushRules) || MentionsAny(command, ToolRules)
    || Mentions(command, BiggerWords) || Mentions(command, SmallerWords)
    || Mentions(command, BackgroundWords) || Mentions(command, HelpWords)
  }

  /** The clause of `parseCommand` that decides a command: clear, save, the
      `i`-th colour, brush type or tool, bigger, smaller, background, help,
      or none. */
  datatype Rung = ClearRung | SaveRung | ColorRung(i: nat) | BrushRung(i: nat) | ToolRung(i: nat)
                | BiggerRung | SmallerRung | BackgroundRung | HelpRung | NoRung

  predicate RungInRange(r: Rung)
  {
    && (r.ColorRung? ==> r.i < |ColorRules|)
    && (r.BrushRung? ==> r.i < |BrushRules|)
    && (r.ToolRung? ==> r.i < |ToolRules|)
  }

  /** The ladder of `parseCommand`: the first clause whose keywords occur,
      the keyed groups tried rule by rule in their listed order. */
  function Classify(command: string): (r: Rung)
    ensures RungInRange(r)
    ensures r.ColorRung? ==> FirstRuleAt(command, ColorRules, r.i)
    ensures r.BrushRung? ==> FirstRuleAt(command, BrushRules, r.i)
    ensures r.ToolRung? ==> FirstRuleAt(command, ToolRules, r.i)
  {
    if Mentions(command, ClearWords) then ClearRung
    else if Mentions(command, SaveWords) then SaveRung
    else
      var c := FirstRule(command, ColorRules, 0);
      if c >= 0 then ColorRung(c) else
      var b := FirstRule(command, BrushRules, 0);
      if b >= 0 then BrushRung(b) else
      var t := FirstRule(command, ToolRules, 0);
      if t >= 0 then ToolRung(t)
      else if Mentions(command, BiggerWords) then BiggerRung
      else if Mentions(command, SmallerWords) then SmallerRung
      else if Mentions(command, BackgroundWords) then BackgroundRung
      else if Mentions(command, HelpWords) then HelpRung
      else NoRung
  }

  /** What each clause hands to `onCommand`. */
  function CommandOf(r: Rung): Option<VoiceCommand>
    requires RungInRange(r)
  {
    KeysMapped();
    match r
    case ClearRung => Some(ClearCommand)
    case SaveRung => Some(SaveCommand)
    case ColorRung(i) => Some(ColorCommand(ColorMap[ColorRules[i].0]))
    case BrushRung(i) => Some(BrushTypeCommand(BrushRules[i].0))
    case ToolRung(i) => Some(ToolCommand(ToolRules[i].0))
    case BiggerRung => Some(SizeCommand(true))
    case SmallerRung => Some(SizeCommand(false))
    case BackgroundRung => Some(BackgroundCommand)
    case HelpRung => Some(HelpCommand)
    case NoRung => None
  }

  /** What each clause shows; save shows nothing. */
  function MessageOf(r: Rung): Option<string>
    requires RungInRange(r)
  {
    KeysMapped();
    match r
    case ClearRung => Some("🎤 已清空画布")
    case SaveRung => None
    case ColorRung(i) => Some("🎤 " + ColorRules[i].0 + "画笔")
    case BrushRung(i) => Some("🎤 " + BrushNames[BrushRules[i].0] + "画笔")
    case ToolRung(i) => Some("🎤 " + ToolNames[ToolRules[i].0] + "工具")
    case BiggerRung => Some("🎤 画笔变大")
    case SmallerRung => Some("🎤 画笔变小")
    case BackgroundRung => Some("🎤 切换背景")
    case HelpRung => Some("🎤 支持: 颜色/画笔/背景/清空/保存")
    case NoRung => None
  }

  /** `parseCommand`: the command and message of the clause that decides;
      the lemmas below state the order of the clauses. */
  function ParseCommand(command: string): (p: Parsed)
    ensures p.command.None? <==> !AnyKeyword(command)
    ensures p.message.Some? <==> p.command.Some? && p.command != Some(SaveCommand)
  {
    var r := Classify(command);
    Parsed(CommandOf(r), MessageOf(r))
  }

  /** Clear wins over everything, save over everything but clear. */
  lemma ParseClearAndSave(command: string)
    ensures ParseCommand(command).command == Some(ClearCommand) <==> Mentions(command, ClearWords)
    ensures ParseCommand(command).command == Some(SaveCommand) <==>
      !Mentions(command, ClearWords) && Mentions(command, SaveWords)
    ensures ParseCommand(command).command == Some(ClearCommand) ==>
      ParseCommand(command).message == Some("🎤 已清空画布")
  {
    var r := Classify(command);
    assert ParseCommand(command) == Parsed(CommandOf(r), MessageOf(r));
  }

  /** The keyed commands: the first matching colour, brush type or tool wins,
      a colour carries `COLOR_MAP` of its English key, and each announces itself. */
  lemma ParseKeyed(command: string)
    ensures var p := ParseCommand(command);
      p.command.Some? && p.command.value.ColorCommand? ==>
        && !Mentions(command, ClearWords) && !Mentions(command, SaveWords)
        && exists i :: FirstRuleAt(command, ColorRules, i)
             && ColorRules[i].0 in ColorMap && p.command.value.value == ColorMap[ColorRules[i].0]
             && p.message == Some("🎤 " + ColorRules[i].0 + "画笔")
    ensures var p := ParseCommand(command);
      p.command.Some? && p.command.value.BrushTypeCommand? ==>
        && !Mentions(command, ClearWords) && !Mentions(command, SaveWords) && !MentionsAny(command, ColorRules)
        && exists i :: FirstRuleAt(command, BrushRules, i) && p.command.value.brush == BrushRules[i].0
             && BrushRules[i].0 in BrushNames && p.message == Some("🎤 " + BrushNames[BrushRules[i].0] + "画笔")
    ensures var p := ParseCommand(command);
      p.command.Some? && p.command.value.ToolCommand? ==>
        && !Mentions(command, ClearWords) && !Mentions(command, SaveWords) && !MentionsAny(command, ColorRules)
        && !MentionsAny(command, BrushRules)
        && exists i :: FirstRuleAt(command, ToolRules, i) && p.command.value.tool == ToolRules[i].0
             && ToolRules[i].0 in ToolNames && p.message == Some("🎤 " + ToolNames[ToolRules[i].0] + "工具")
  {
    KeysMapped();
    var r := Classify(command);
    assert ParseCommand(command) == Parsed(CommandOf(r), MessageOf(r));
    match r
    case ColorRung(i) => assert FirstRuleAt(command, ColorRules, i);
    case BrushRung(i) => assert FirstRuleAt(command, BrushRules, i);
    case ToolRung(i) => assert FirstRuleAt(command, ToolRules, i);
    case _ =>
  }

  /** Below the keyed commands: bigger, then smaller, then background, then help. */
  lemma ParseLowerPriorities(command: string)
    ensures ParseCommand(command).command == Some(SizeCommand(true)) <==>
      && !Mentions(command, ClearWords) && !Mentions(command, SaveWords) && !MentionsAny(command, ColorRules)
      && !MentionsAny(command, BrushRules) && !MentionsAny(command, ToolRules)
      && Mentions(command, BiggerWords)
    ensures ParseCommand(command).command == Some(SizeCommand(false)) <==>
      && !Mentions(command, ClearWords) && !Mentions(command, SaveWords) && !MentionsAny(command, ColorRules)
      && !MentionsAny(command, BrushRules) && !MentionsAny(command, ToolRules)
      && !Mentions(command, BiggerWords) && Mentions(command, SmallerWords)
    ensures ParseCommand(command).command == Some(BackgroundCommand) <==>
      && !Mentions(command, ClearWords) && !Mentions(command, SaveWords) && !MentionsAny(command, ColorRules)
      && !MentionsAny(command, BrushRules) && !MentionsAny(command, ToolRules)
      && !Mentions(command, BiggerWords) && !Mentions(command, SmallerWords)
      && Mentions(command, BackgroundWords)
    ensures ParseCommand(command).command == Some(HelpCommand) <==>
      && !Mentions(command, ClearWords) && !Mentions(command, SaveWords) && !MentionsAny(command, ColorRules)
      && !MentionsAny(command, BrushRules) && !MentionsAny(command, ToolRules)
      && !Mentions(command, BiggerWords) && !Mentions(command, SmallerWords)
      && !Mentions(command, BackgroundWords) && Mentions(command, HelpWords)
  {
    var r := Classify(command);
    assert ParseCommand(command).command == CommandOf(r);
  }

  // ---------------------------------------------------------------------------
  // De-duplication keys

  /** `${command}_${Math.floor(timestamp / 1000)}` for a non-negative timestamp. */
  /** The key decodes back: the text before its last underscore is the
      command, and the digits after it read as the second. */
  function CommandKey(command: string, timestamp: nat): (k: string)
    ensures LastUnderscore(k) == |command|
    ensures k[..|command|] == command
    ensures |k| > |command| + 1 && forall i :: |command| < i < |k| ==> IsDigit(k[i])
    ensures ParseNat(k[|command| + 1..]) == timestamp / 1000
  {
    var d := NatToString(timestamp / 1000);
    LastUnderscoreBeforeDigits(command, d);
    ParseNatToString(timestamp / 1000);
    var k := command + "_" + d;
    assert k[..|command|] == command && k[|command| + 1..] == d;
    k
  }

  /** The index of the last underscore in `s`, or -1. */
  function LastUnderscore(s: string): (i: int)
    ensures -1 <= i < |s|
  {
    if |s| == 0 then -1
    else if s[|s| - 1] == '_' then |s| - 1
    else LastUnderscore(s[..|s| - 1])
  }

  lemma {:induction false} LastUnderscoreBeforeDigits(c: string, d: string)
    requires forall i :: 0 <= i < |d| ==> IsDigit(d[i])
    ensures LastUnderscore(c + "_" + d) == |c|
    decreases |d|
  {
    var s := c + "_" + d;
    if |d| == 0 {
      assert s[|s| - 1] == '_';
    } else {
      assert s[|s| - 1] == d[|d| - 1];
      assert s[..|s| - 1] == c + "_" + d[..|d| - 1];
      LastUnderscoreBeforeDigits(c, d[..|d| - 1]);
    }
  }

  /** Two keys are equal only for the same command in the same second: the
      digits after the last underscore are the second. */
  lemma CommandKeyInjective(c1: string, t1: nat, c2: string, t2: nat)
    requires CommandKey(c1, t1) == CommandKey(c2, t2)
    ensures c1 == c2 && t1 / 1000 == t2 / 1000
  {
    var d1, d2 := NatToString(t1 / 1000), NatToString(t2 / 1000);
    var k := CommandKey(c1, t1);
    assert k == c1 + "_" + d1 && k == c2 + "_" + d2;
    LastUnderscoreBeforeDigits(c1, d1);
    LastUnderscoreBeforeDigits(c2, d2);
    assert c1 == k[..|c1|] == c2;
    assert d1 == k[|c1| + 1..] == d2;
    NatToStringInjective(t1 / 1000, t2 / 1000);
  }

  // ---------------------------------------------------------------------------
  // The processor's state and its transitions

  datatype VoiceState = VoiceState(
    commandQueue: seq<string>,
    isProcessing: bool,
    lastCommandTime: int,
    processedCommands: set<string>,
    commandHistory: seq<HistoryEntry>,
    scheduled: seq<VoiceCommand>,
    messages: seq<string>)

  ghost predicate Bounded(st: VoiceState)
  {
    |st.processedCommands| <= MaxProcessed && |st.commandHistory| <= MaxHistory
  }

  /** `processCommand`: a command already seen in this second changes
      nothing; otherwise its key is recorded (the set is emptied once it
      holds more than `MaxProcessed` keys), the time and the history are
      updated, and the parsed command is scheduled with its message shown. */
  function Processed(st: VoiceState, command: string, timestamp: nat): (r: VoiceState)
    ensures CommandKey(command, timestamp) in st.processedCommands ==> r == st
    ensures Bounded(st) ==> Bounded(r)
  {
    var key := CommandKey(command, timestamp);
    if key in st.processedCommands then st
    else
      var added := st.processedCommands + {key};
      var entry := HistoryEntry(command, timestamp);
      var pushed := st.commandHistory + [entry];
      var history := if |pushed| > MaxHistory then pushed[1..] else pushed;
      var _ := if |st.commandHistory| <= MaxHistory
        then PushShiftIsKeepLast(st.commandHistory, entry, MaxHistory); 0 else 0;
      var p := ParseCommand(command);
      st.(processedCommands := if |added| > MaxProcessed then {} else added,
          lastCommandTime := timestamp,
          commandHistory := history,
          scheduled := st.scheduled + (if p.command.Some? then [p.command.value] else []),
          messages := st.messages + (if p.message.Some? then [p.message.value] else []))
  }

  /** What `processCommand` does to each field: a fresh key is recorded (the
      set is emptied once it would exceed `MaxProcessed`), the time is
      updated, the entry is appended and the oldest dropped beyond
      `MaxHistory`, and the parsed command is scheduled and announced. */
  lemma ProcessedFacts(st: VoiceState, command: string, timestamp: nat)
    requires CommandKey(command, timestamp) !in st.processedCommands
    ensures var r := Processed(st, command, timestamp);
      var key, entry, p := CommandKey(command, timestamp), HistoryEntry(command, timestamp), ParseCommand(command);
      && r.lastCommandTime == timestamp
      && (r.processedCommands == st.processedCommands + {key} || r.processedCommands == {})
      && |r.processedCommands| <= MaxProcessed
      && (|st.processedCommands| < MaxProcessed ==> r.processedCommands == st.processedCommands + {key})
      && |r.commandHistory| >= 1 && r.commandHistory[|r.commandHistory| - 1] == entry
      && (|st.commandHistory| <= MaxHistory ==>
            r.commandHistory == KeepLast(st.commandHistory + [entry], MaxHistory))
      && r.scheduled == st.scheduled + (if p.command.Some? then [p.command.value] else [])
      && r.messages == st.messages + (if p.message.Some? then [p.message.value] else [])
      && r.commandQueue == st.commandQueue && r.isProcessing == st.isProcessing
  {
    if |st.commandHistory| <= MaxHistory {
      PushShiftIsKeepLast(st.commandHistory, HistoryEntry(command, timestamp), MaxHistory);
    }
  }

  /** `transcript.trim().toLowerCase()`. */
  function Clean(transcript: string): string
  {
    ToLower(Trim(transcript))
  }

  /** The command `processVoiceResult` hands on, if any. */
  /** Whether an interim result with cleaned text `clean` is acted on. */
  predicate InterimAccepted(clean: string, confidence: real)
  {
    (|clean| <= 4 && confidence > 0.8 && IsQuickCommand(clean))
    || (confidence > 0.7 && IsCommonCommand(clean))
  }

  function Gate(st: VoiceState, transcript: string, confidence: real, isFinal: bool, now: nat): (c: Option<string>)
    ensures c.Some? ==> c.value == Clean(transcript)
    ensures confidence < ConfidenceThreshold || now - st.lastCommandTime < CommandCooldown ==> c.None?
  {
    if confidence < ConfidenceThreshold then None
    else if now - st.lastCommandTime < CommandCooldown then None
    else if !isFinal && !InterimAccepted(Clean(transcript), confidence) then None
    else Some(Clean(transcript))
  }

  /** Which results pass: a final one whenever the confidence and cooldown
      tests pass, an interim one only as a short, very confident quick command
      or a confident common command. */
  lemma GateFacts(st: VoiceState, transcript: string, confidence: real, isFinal: bool, now: nat)
    ensures var c := Gate(st, transcript, confidence, isFinal, now);
      isFinal ==> (c.Some? <==> confidence >= ConfidenceThreshold && now - st.lastCommandTime >= CommandCooldown)
    ensures var c := Gate(st, transcript, confidence, isFinal, now);
      !isFinal ==> (c.Some? <==>
        && confidence >= ConfidenceThreshold && now - st.lastCommandTime >= CommandCooldown
        && ((|Clean(transcript)| <= 4 && confidence > 0.8 && IsQuickCommand(Clean(transcript)))
            || (confidence > 0.7 && IsCommonCommand(Clean(transcript)))))
  {
  }

  /** The quick-command path adds nothing: an interim result passes the gate
      exactly when it passes the confidence, cooldown and common-command tests. */
  lemma InterimGate(st: VoiceState, transcript: string, confidence: real, now: nat)
    ensures Gate(st, transcript, confidence, false, now).Some? <==>
      && confidence >= ConfidenceThreshold && now - st.lastCommandTime >= CommandCooldown
      && confidence > 0.7 && IsCommonCommand(Clean(transcript))
  {
    GateFacts(st, transcript, confidence, false, now);
    if IsQuickCommand(Clean(transcript)) {
      QuickIsCommon(Clean(transcript));
    }
  }

  /** `processVoiceResult`. */
  function AfterResult(st: VoiceState, transcript: string, confidence: real, isFinal: bool, now: nat): (r: VoiceState)
    ensures Gate(st, transcript, confidence, isFinal, now).None? ==> r == st
    ensures Gate(st, transcript, confidence, isFinal, now).Some? ==>
      r == Processed(st, Clean(transcript), now)
  {
    var c := Gate(st, transcript, confidence, isFinal, now);
    if c.Some? then Processed(st, c.value, now) else st
  }

  /** What `calculateAverageInterval` computes: the mean gap between
      consecutive history entries, which is the span over the gap count. */
  function AverageInterval(h: seq<HistoryEntry>): real
  {
    if |h| < 2 then 0.0 else (h[|h| - 1].timestamp - h[0].timestamp) as real / (|h| - 1) as real
  }

  function SumOfGaps(h: seq<HistoryEntry>, n: nat): int
    requires 1 <= n <= |h|
    decreases n
  {
    if n == 1 then 0 else SumOfGaps(h, n - 1) + (h[n - 1].timestamp - h[n - 2].timestamp)
  }

  /** The gaps telescope. */
  lemma {:induction false} SumOfGapsTelescopes(h: seq<HistoryEntry>, n: nat)
    requires 1 <= n <= |h|
    ensures SumOfGaps(h, n) == h[n - 1].timestamp - h[0].timestamp
    decreases n
  {
    if n > 1 {
      SumOfGapsTelescopes(h, n - 1);
    }
  }

  lemma AverageIntervalIsMeanGap(h: seq<HistoryEntry>)
    requires |h| >= 2
    ensures AverageInterval(h) == SumOfGaps(h, |h|) as real / (|h| - 1) as real
  {
    SumOfGapsTelescopes(h, |h|);
  }

  datatype CommandStats = CommandStats(totalCommands: nat, recentCommands: seq<HistoryEntry>, averageInterval: real)

  class VoiceControlOptimizer {
    var commandQueue: seq<string>
    var isProcessing: bool
    var lastCommandTime: int
    var processedCommands: set<string>
    var commandHistory: seq<HistoryEntry>
    var scheduled: seq<VoiceCommand>
    var messages: seq<string>

    function AsState(): VoiceState
      reads this
    {
      VoiceState(commandQueue, isProcessing, lastCommandTime, processedCommands,
                 commandHistory, scheduled, messages)
    }

    ghost predicate Valid()
      reads this
    {
      Bounded(AsState())
    }

    constructor ()
      ensures AsState() == VoiceState([], false, 0, {}, [], [], [])
      ensures Valid()
    {
      commandQueue := [];
      isProcessing := false;
      lastCommandTime := 0;
      processedCommands := {};
      commandHistory := [];
      scheduled := [];
      messages := [];
    }

    method ProcessVoiceResult(transcript: string, confidence: real, isFinal: bool, now: nat)
      requires Valid()
      modifies this
      ensures AsState() == AfterResult(old(AsState()), transcript, confidence, isFinal, now)
      ensures Valid()
    {
      if confidence < ConfidenceThreshold {
        return;
      }
      if now - lastCommandTime < CommandCooldown {
        return;
      }
      var clean := ToLower(Trim(transcript));
      if !isFinal && !InterimAccepted(clean, confidence) {
        return;
      }
      ProcessCommand(clean, now);
    }

    method ProcessCommand(command: string, timestamp: nat)
      requires Valid()
      modifies this
      ensures AsState() == Processed(old(AsState()), command, timestamp)
      ensures Valid()
    {
      ghost var target := Processed(AsState(), command, timestamp);
      var commandKey := CommandKey(command, timestamp);
      if commandKey in processedCommands {
        return;
      }
      RememberKey(commandKey);
      lastCommandTime := timestamp;
      PushHistory(HistoryEntry(command, timestamp));
      var parsed := ParseCommand(command);
      var shown := if parsed.message.Some? then [parsed.message.value] else [];
      var deferred := if parsed.command.Some? then [parsed.command.value] else [];
      messages := messages + shown;
      scheduled := scheduled + deferred;
      assert AsState() == target;
    }

    method RememberKey(commandKey: string)
      modifies this
      ensures processedCommands ==
        (if |old(processedCommands) + {commandKey}| > MaxProcessed then {} else old(processedCommands) + {commandKey})
      ensures AsState() == old(AsState()).(processedCommands := processedCommands)
    {
      processedCommands := processedCommands + {commandKey};
      if |processedCommands| > MaxProcessed {
        processedCommands := {};
      }
    }

    method PushHistory(entry: HistoryEntry)
      modifies this
      ensures commandHistory ==
        (if |old(commandHistory) + [entry]| > MaxHistory then (old(commandHistory) + [entry])[1..]
         else old(commandHistory) + [entry])
      ensures AsState() == old(AsState()).(commandHistory := commandHistory)
    {
      commandHistory := commandHistory + [entry];
      if |commandHistory| > MaxHistory {
        commandHistory := commandHistory[1..];
      }
    }

    /** `calculateAverageInterval`: sums the gaps between consecutive entries. */
    method CalculateAverageInterval() returns (average: real)
      ensures average == AverageInterval(commandHistory)
    {
      if |commandHistory| < 2 {
        return 0.0;
      }
      var totalInterval := 0;
      for i := 1 to |commandHistory|
        invariant totalInterval == SumOfGaps(commandHistory, i)
      {
        totalInterval := totalInterval + (commandHistory[i].timestamp - commandHistory[i - 1].timestamp);
      }
      AverageIntervalIsMeanGap(commandHistory);
      average := totalInterval as real / (|commandHistory| - 1) as real;
    }

    method GetStats() returns (stats: CommandStats)
      ensures stats.totalCommands == |commandHistory|
      ensures stats.recentCommands == KeepLast(commandHistory, 5)
      ensures stats.averageInterval == AverageInterval(commandHistory)
    {
      var average := CalculateAverageInterval();
      stats := CommandStats(|commandHistory|, KeepLast(commandHistory, 5), average);
    }

    method Cleanup()
      modifies this
      ensures AsState() == old(AsState()).(commandQueue := [], processedCommands := {}, commandHistory := [])
      ensures Valid()
    {
      commandQueue := [];
      processedCommands := {};
      commandHistory := [];
    }
  }
}
