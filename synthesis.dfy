/**
 * `generate_daily_summary` of src-tauri/src/synthesis/mod.rs: validate the
 * stored settings, turn today's records into one line each, ask the
 * chat-completions service for a Markdown report, write it as
 * `<obsidian path>/<date>.md`, and remember that path in the settings. The
 * settings store, the record query, the clock, the service and the file
 * system are inputs (a `SummaryWorld`).
 */
module Synthesis {
  import opened Wrappers
  import opened Text
  import opened Storage
  import opened ChatApi

  const ObsidianPathMissing := "Obsidian path not configured"
  const ObsidianPathEmpty := "Obsidian path is empty"
  const BaseUrlMissing := "API Base URL not configured"
  const ApiKeyMissing := "API Key not configured"
  const ApiKeyEmpty := "API Key is empty"
  const NoRecordsMessage := "No records for today"
  const DefaultSummaryModel := "gpt-4o"
  const SummaryMaxTokens: nat := 2000

  /** What the summary needs from the settings once they pass validation. */
  datatype SummaryConfig = SummaryConfig(obsidianPath: string, apiBaseUrl: string, apiKey: string, modelName: string)

  /** The settings checks of `generate_daily_summary`, in the order it makes them. */
  function SettingsChecks(s: Settings): seq<(bool, string)> {
    [ (s.obsidianPath.Some?, ObsidianPathMissing),
      (s.obsidianPath.Some? && s.obsidianPath.value != [], ObsidianPathEmpty),
      (s.apiBaseUrl.Some?, BaseUrlMissing),
      (s.apiKey.Some?, ApiKeyMissing),
      (s.apiKey.Some? && s.apiKey.value != [], ApiKeyEmpty) ]
  }

  /** The message of the first check that fails, if any. */
  function FirstFailure(checks: seq<(bool, string)>): Option<string> {
    if checks == [] then None
    else if !checks[0].0 then Some(checks[0].1)
    else FirstFailure(checks[1..])
  }

  /**
   * The validation chain: the path must be present and non-empty, the base URL
   * present, the key present and non-empty; the model defaults to "gpt-4o".
   */
  function ValidateSettings(s: Settings): (r: Result<SummaryConfig, string>)
    ensures r.Success? <==>
              s.obsidianPath.Some? && s.obsidianPath.value != [] && s.apiBaseUrl.Some? &&
              s.apiKey.Some? && s.apiKey.value != []
    ensures r.Success? ==>
              r.value == SummaryConfig(s.obsidianPath.value, s.apiBaseUrl.value, s.apiKey.value,
                                       s.modelName.GetOr(DefaultSummaryModel))
  {
    match s.obsidianPath
    case None => Failure(ObsidianPathMissing)
    case Some(path) =>
      if path == [] then Failure(ObsidianPathEmpty)
      else match s.apiBaseUrl
      case None => Failure(BaseUrlMissing)
      case Some(url) =>
        match s.apiKey
        case None => Failure(ApiKeyMissing)
        case Some(key) =>
          var model := s.modelName.GetOr(DefaultSummaryModel);
          if key == [] then Failure(ApiKeyEmpty)
          else Success(SummaryConfig(path, url, key, model))
  }

  /** Validation fails exactly with the message of the first failing check, in source order. */
  lemma {:induction false} ValidationReportsFirstFailure(s: Settings)
    ensures ValidateSettings(s).Failure? <==> FirstFailure(SettingsChecks(s)).Some?
    ensures ValidateSettings(s).Failure? ==> ValidateSettings(s).error == FirstFailure(SettingsChecks(s)).value
  {
    var cs := SettingsChecks(s);
    assert FirstFailure(cs[4..]) == if !cs[4].0 then Some(cs[4].1) else None by {
      assert cs[4..][1..] == [];
    }
    assert FirstFailure(cs[3..]) == if !cs[3].0 then Some(cs[3].1) else FirstFailure(cs[4..]) by {
      assert cs[3..][1..] == cs[4..];
    }
    assert FirstFailure(cs[2..]) == if !cs[2].0 then Some(cs[2].1) else FirstFailure(cs[3..]) by {
      assert cs[2..][1..] == cs[3..];
    }
    assert FirstFailure(cs[1..]) == if !cs[1].0 then Some(cs[1].1) else FirstFailure(cs[2..]) by {
      assert cs[1..][1..] == cs[2..];
    }
  }

  /** An absent model name falls back to "gpt-4o"; a present one is used as is. */
  lemma {:induction false} ModelNameDefault(s: Settings)
    requires ValidateSettings(s).Success?
    ensures ValidateSettings(s).value.modelName == if s.modelName.None? then "gpt-4o" else s.modelName.value
  {
  }

  /** The label of an "auto" record: U+1F5A5 U+FE0F, a space, then "自动感知". */
  const AutoLabel := "\U{1F5A5}\U{FE0F} " + "自动感知"
  /** The label of every other record. */
  const ManualLabel := "⚡ " + "闪念"
  const UnknownTime := "unknown"

  function SourceLabel(sourceType: string): (l: string)
    ensures l == AutoLabel <==> sourceType == AutoSource
    ensures l == ManualLabel <==> sourceType != AutoSource
  {
    assert AutoLabel[0] != ManualLabel[0];
    if sourceType == AutoSource then AutoLabel else ManualLabel
  }

  /**
   * One record's line: "- [HH:MM] label: content", where the time is what
   * `formatTime` makes of the RFC 3339 timestamp, or "unknown" when it does not parse.
   */
  function RecordLine(r: Record, formatTime: string -> Option<string>): (l: string)
    ensures StartsWith(l, "- [" + formatTime(r.timestamp).GetOr(UnknownTime) + "] " + SourceLabel(r.sourceType))
    ensures EndsWith(l, ": " + r.content)
  {
    "- [" + formatTime(r.timestamp).GetOr(UnknownTime) + "] " + SourceLabel(r.sourceType) + ": " + r.content
  }

  function RecordLines(rs: seq<Record>, formatTime: string -> Option<string>): (ls: seq<string>)
    ensures |ls| == |rs|
    ensures forall i :: 0 <= i < |rs| ==> ls[i] == RecordLine(rs[i], formatTime)
  {
    seq(|rs|, i requires 0 <= i < |rs| => RecordLine(rs[i], formatTime))
  }

  /** The records text of the prompt: the record lines joined by "\n". */
  function RecordsText(rs: seq<Record>, formatTime: string -> Option<string>): (t: string)
    ensures t == [] <==> rs == []
    ensures |rs| == 1 ==> t == RecordLine(rs[0], formatTime)
    ensures |rs| > 1 ==> StartsWith(t, RecordLine(rs[0], formatTime) + "\n")
  {
    Join(RecordLines(rs, formatTime), "\n")
  }

  lemma {:induction false} NoNewlineConcat(a: string, b: string)
    requires HasNoNewline(a) && HasNoNewline(b)
    ensures HasNoNewline(a + b)
  {
    assert forall j :: 0 <= j < |a + b| ==> (a + b)[j] == if j < |a| then a[j] else b[j - |a|];
  }

  /** A record is printable on one line when neither its time nor its content holds a line break. */
  predicate OneLine(r: Record, formatTime: string -> Option<string>) {
    && HasNoNewline(formatTime(r.timestamp).GetOr(UnknownTime))
    && HasNoNewline(r.content)
    && (r.content == [] || r.content[|r.content| - 1] != '\r')
  }

  lemma {:induction false} RecordLineIsPlain(r: Record, formatTime: string -> Option<string>)
    requires OneLine(r, formatTime)
    ensures IsPlainLine(RecordLine(r, formatTime))
  {
    var time := formatTime(r.timestamp).GetOr(UnknownTime);
    var tag := SourceLabel(r.sourceType);
    assert HasNoNewline(tag);
    NoNewlineConcat("- [", time);
    NoNewlineConcat("- [" + time, "] ");
    NoNewlineConcat("- [" + time + "] ", tag);
    NoNewlineConcat("- [" + time + "] " + tag, ": ");
    NoNewlineConcat("- [" + time + "] " + tag + ": ", r.content);
  }

  /**
   * The records text has one line per record, in the given order, each the
   * record's formatted line, as long as no record spans several lines.
   */
  lemma {:induction false} RecordsTextOneLinePerRecord(rs: seq<Record>, formatTime: string -> Option<string>)
    requires forall i :: 0 <= i < |rs| ==> OneLine(rs[i], formatTime)
    ensures |Lines(RecordsText(rs, formatTime))| == |rs|
    ensures forall i :: 0 <= i < |rs| ==> Lines(RecordsText(rs, formatTime))[i] == RecordLine(rs[i], formatTime)
  {
    var ls := RecordLines(rs, formatTime);
    forall k | 0 <= k < |ls|
      ensures IsPlainLine(ls[k])
    {
      RecordLineIsPlain(rs[k], formatTime);
    }
    LinesOfJoin(ls);
  }

  /** A record line says "unknown" for a timestamp that does not parse. */
  lemma {:induction false} UnparsableTimeIsUnknown(r: Record, formatTime: string -> Option<string>)
    requires formatTime(r.timestamp).None?
    ensures RecordLine(r, formatTime) == "- [unknown] " + SourceLabel(r.sourceType) + ": " + r.content
  {
  }

  /** The instructions before the records: a structured Markdown daily report, in time order. */
  const PromptHead :=
    "你是一个工作日志助手。" + "请根据以下今日工作记录，" + "生成一份结构化的 Markdown 格式日报。\n\n" +
    "要求：\n" + "1. 按时间顺序组织\n" + "2. 提取关键工作内容和技术关键词\n" +
    "3. 总结今日工作成果和遇到的问题\n" + "4. 输出纯 Markdown 格式，不要有其他说明文字\n\n" +
    "今日记录：\n"
  const PromptTail := "\n\n" + "请生成日报："

  /** The prompt: the instructions, the records text, then the request for the report. */
  function SummaryPrompt(recordsText: string): (p: string)
    ensures StartsWith(p, PromptHead) && EndsWith(p, PromptTail)
    ensures |p| == |PromptHead| + |recordsText| + |PromptTail|
    ensures p[|PromptHead|..|p| - |PromptTail|] == recordsText
  {
    PromptHead + recordsText + PromptTail
  }

  datatype SummaryRequest = SummaryRequest(
    endpoint: string,
    authorization: string,
    model: string,
    prompt: string,
    maxTokens: nat)

  function SummaryRequestFor(c: SummaryConfig, recordsText: string): (q: SummaryRequest)
    ensures q.endpoint == c.apiBaseUrl + ChatCompletionsPath
    ensures q.authorization == BearerPrefix + c.apiKey
    ensures q.model == c.modelName
    ensures q.prompt == SummaryPrompt(recordsText) && Contains(q.prompt, recordsText)
    ensures q.maxTokens == 2000
  {
    ContainsInfix(PromptHead, recordsText, PromptTail);
    SummaryRequest(c.apiBaseUrl + ChatCompletionsPath, BearerPrefix + c.apiKey, c.modelName,
                   SummaryPrompt(recordsText), SummaryMaxTokens)
  }

  /** The summary text out of the service's reply, or the error the command reports. */
  function SummaryText(reply: Reply): (r: Result<string, string>)
    ensures r.Success? <==> reply.Accepted? && reply.payload.Content?
    ensures r.Success? ==> r.value == reply.payload.text
  {
    match reply
    case SendFailed(e) => Failure(SendFailedMessage(e))
    case Rejected(status, body) => Failure(ApiErrorMessage(status, body))
    case Accepted(Unparsable(e)) => Failure(UnparsableMessage(e))
    case Accepted(ContentMissing) => Failure(NoContentMessage)
    case Accepted(Content(text)) => Success(text)
  }

  /** `PathBuf::join` of a relative file name on a Unix path: one "/" between them. */
  function JoinPath(dir: string, name: string): (p: string)
    requires dir != []
    ensures p == dir + name || p == dir + "/" + name
    ensures EndsWith(p, name) && StartsWith(p, dir)
  {
    if dir[|dir| - 1] == '/' then dir + name else dir + "/" + name
  }

  /** The report file of a day: "<date>.md" in the Obsidian folder. */
  function OutputPath(dir: string, today: string): (p: string)
    requires dir != []
    ensures StartsWith(p, dir) && EndsWith(p, today + ".md")
    ensures |p| == |dir| + |today| + 3 || |p| == |dir| + |today| + 4
  {
    JoinPath(dir, today + ".md")
  }

  /** The settings as saved back: the loaded ones with only `last_summary_path` replaced. */
  function WithLastSummaryPath(s: Settings, path: string): (u: Settings)
    ensures u.lastSummaryPath == Some(path)
    ensures u.(lastSummaryPath := s.lastSummaryPath) == s
  {
    s.(lastSummaryPath := Some(path))
  }

  /** What the collaborators of one summary run do. */
  datatype SummaryWorld = SummaryWorld(
    settings: Result<Settings, string>,          // `get_settings_sync`
    records: Result<seq<Record>, string>,        // today's records, in the order the query returns them
    formatTime: string -> Option<string>,        // RFC 3339 timestamp to "%H:%M"
    reply: Reply,                                // the service's answer
    today: string,                               // the local date as "%Y-%m-%d"
    createDirFailure: Option<string>,            // `create_dir_all`
    writeFailure: Option<string>,                // `fs::write`
    saveFailure: Option<string>)                 // `save_settings_sync`

  datatype SummaryOutcome = SummaryOutcome(
    result: Result<string, string>,
    request: Option<SummaryRequest>,             // the request sent, if one was
    written: Option<(string, string)>,           // the file written: path and contents
    saved: Option<Settings>)                     // the settings saved back

  function GenerateDailySummary(w: SummaryWorld): (o: SummaryOutcome)
    ensures o.request.None? ==> o.written.None?
    ensures o.written.None? ==> o.saved.None?
  {
    match w.settings
    case Failure(e) => SummaryOutcome(Failure("Failed to get settings: " + e), None, None, None)
    case Success(s) =>
      match ValidateSettings(s)
      case Failure(e) => SummaryOutcome(Failure(e), None, None, None)
      case Success(c) =>
        match w.records
        case Failure(e) => SummaryOutcome(Failure("Failed to get records: " + e), None, None, None)
        case Success(rs) =>
          if rs == [] then SummaryOutcome(Failure(NoRecordsMessage), None, None, None)
          else
            var q := Some(SummaryRequestFor(c, RecordsText(rs, w.formatTime)));
            match SummaryText(w.reply)
            case Failure(e) => SummaryOutcome(Failure(e), q, None, None)
            case Success(summary) =>
              var path := OutputPath(c.obsidianPath, w.today);
              match (w.createDirFailure, w.writeFailure)
              case (Some(e), _) => SummaryOutcome(Failure("Failed to create output directory: " + e), q, None, None)
              case (None, Some(e)) => SummaryOutcome(Failure("Failed to write summary: " + e), q, None, None)
              case (None, None) =>
                var written := Some((path, summary));
                var u := WithLastSummaryPath(s, path);
                match w.saveFailure
                case Some(e) => SummaryOutcome(Failure("Failed to update settings: " + e), q, written, None)
                case None => SummaryOutcome(Success(path), q, written, Some(u))
  }

  /** Settings that pass validation and a non-empty record list are what it takes to reach the service. */
  predicate ReadyToRequest(w: SummaryWorld) {
    && w.settings.Success? && ValidateSettings(w.settings.value).Success?
    && w.records.Success? && w.records.value != []
  }

  /**
   * Every validation error, the empty record list included, is reported
   * before any request: a request is made exactly when all checks pass, and it
   * carries today's records.
   */
  lemma {:induction false} ValidationPrecedesRequest(w: SummaryWorld)
    ensures GenerateDailySummary(w).request.Some? <==> ReadyToRequest(w)
    ensures w.settings.Success? && ValidateSettings(w.settings.value).Failure? ==>
              && GenerateDailySummary(w).result.Failure?
              && Some(GenerateDailySummary(w).result.error) == FirstFailure(SettingsChecks(w.settings.value))
    ensures w.settings.Success? && ValidateSettings(w.settings.value).Success? && w.records == Success([]) ==>
              GenerateDailySummary(w).result == Failure(NoRecordsMessage)
    ensures ReadyToRequest(w) ==>
              Contains(GenerateDailySummary(w).request.value.prompt, RecordsText(w.records.value, w.formatTime))
  {
    if w.settings.Success? {
      ValidationReportsFirstFailure(w.settings.value);
    }
  }

  /**
   * A summary run succeeds exactly when it is ready, the reply carries content
   * and the file system and the store cooperate; then the returned path is the
   * dated file in the Obsidian folder, the summary is written there, and the
   * saved settings differ from the loaded ones only in `last_summary_path`,
   * which is that path.
   */
  lemma {:induction false} SummarySuccess(w: SummaryWorld)
    ensures var o := GenerateDailySummary(w);
            o.result.Success? <==>
              ReadyToRequest(w) && SummaryText(w.reply).Success? &&
              w.createDirFailure.None? && w.writeFailure.None? && w.saveFailure.None?
    ensures var o := GenerateDailySummary(w);
            o.result.Success? ==>
              var s := w.settings.value;
              && o.result.value == OutputPath(s.obsidianPath.value, w.today)
              && o.written == Some((o.result.value, SummaryText(w.reply).value))
              && o.saved.Some?
              && o.saved.value.lastSummaryPath == Some(o.result.value)
              && o.saved.value.(lastSummaryPath := s.lastSummaryPath) == s
  {
  }

  /** Nothing is saved unless the whole run succeeds. */
  lemma {:induction false} SavedOnlyOnSuccess(w: SummaryWorld)
    ensures GenerateDailySummary(w).saved.Some? <==> GenerateDailySummary(w).result.Success?
  {
  }

  /** The report goes to "<date>.md" inside the Obsidian folder, with the same name whether or not the folder ends in "/". */
  lemma {:induction false} OutputPathShape(dir: string, today: string)
    requires dir != []
    ensures OutputPath(dir + "/", today) == dir + "/" + today + ".md"
    ensures dir[|dir| - 1] != '/' ==> OutputPath(dir, today) == dir + "/" + today + ".md"
  {
    assert (dir + "/")[|dir + "/"| - 1] == '/';
  }
}
