/**
 * The prompt side of `GPTOSSClient`: the text the assistant is given about
 * the infrastructure (`_format_context`), the message list of `ask`, and the
 * diagnosis prompt of `analyze_compose_issue`. The chat model itself is an
 * oracle from message lists to a reply or an error.
 */
module Llm {
  import opened Wrappers
  import opened Values
  import opened Seqs

  const SYSTEM_PROMPT: string :=
    "Eres InfraGuardian AI, un asistente experto en infraestructura Dokploy y Docker.\n\n"
    + "Tu rol es ayudar al usuario a:\n"
    + "- Gestionar y monitorear servicios Docker Compose desplegados en Dokploy\n"
    + "- Diagnosticar problemas de infraestructura\n"
    + "- Explicar conceptos de Docker, Docker Compose y Dokploy\n"
    + "- Sugerir mejores prácticas y soluciones\n\n"
    + "Características:\n"
    + "- Respuestas concisas y técnicas\n"
    + "- Enfocado en soluciones prácticas\n"
    + "- Usa emojis ocasionalmente para claridad visual\n"
    + "- Si no conoces algo específico, admítelo\n\n"
    + "El usuario puede preguntarte cualquier cosa sobre Docker, Dokploy o su infraestructura."

  /** At most this many composes are listed one by one. */
  const MAX_DETAILED: nat := 10

  // The line starts of the context text; no two share their first three characters.
  const AVAILABLE: string := "Composes disponibles: "
  const ACTIVE_HEADER: string := "\nComposes activos:"
  const COMPOSE_ITEM: string := "  - "
  const OVERFLOW: string := "  ... y "
  const STATS_HEADER: string := "\nEstadísticas:"
  const TOTAL: string := "  Total composes: "
  const DISTRIBUTION_HEADER: string := "  Distribución:"
  const DISTRIBUTION_ITEM: string := "    - "

  const TAGS: set<string> :=
    {AVAILABLE, ACTIVE_HEADER, COMPOSE_ITEM, OVERFLOW, STATS_HEADER, TOTAL, DISTRIBUTION_HEADER, DISTRIBUTION_ITEM}

  /** The `stats` entry of a context: `total_composes` and `status_distribution`, each possibly absent. */
  datatype Stats = Stats(totalComposes: Option<Value>, statusDistribution: Option<seq<(Value, Value)>>)

  /**
   * The context dict of `ask`: its `composes` and `stats` entries, each
   * possibly absent, and how many other keys it has (they are never read,
   * but they make the dict truthy).
   */
  datatype Context = Context(composes: Option<seq<Record>>, stats: Option<Stats>, otherKeys: nat)

  /** A non-empty dict is truthy, whatever its values. */
  predicate ContextTruthy(ctx: Option<Context>)
  {
    ctx.Some? && (ctx.value.composes.Some? || ctx.value.stats.Some? || ctx.value.otherKeys > 0)
  }

  datatype Message = SystemMessage(content: string) | HumanMessage(content: string)

  /** The chat model: a reply to a message list, or the exception its invocation raised. */
  type Model = seq<Message> -> Result<string, string>

  function Min(a: nat, b: nat): nat { if a <= b then a else b }

  // ---------------------------------------------------------------------------
  // The lines of `_format_context`

  function ComposeLine(c: Record): string
  {
    COMPOSE_ITEM + Display(Get(c, "name", Str("Unknown"))) + " (" + Display(Get(c, "project_name", Str("Unknown")))
    + "): " + Display(Get(c, "composeStatus", Str("unknown")))
  }

  function ComposeLines(cs: seq<Record>): (lines: seq<string>)
    ensures |lines| == |cs|
    ensures forall i :: 0 <= i < |cs| ==> lines[i] == ComposeLine(cs[i])
  {
    seq(|cs|, i requires 0 <= i < |cs| => ComposeLine(cs[i]))
  }

  function OverflowLine(n: nat): string
  {
    OVERFLOW + NatText(n) + " más"
  }

  /** `composes[:10]`. */
  function Shown(cs: seq<Record>): seq<Record>
  {
    cs[..Min(|cs|, MAX_DETAILED)]
  }

  function OverflowPart(n: nat): seq<string>
  {
    if n > MAX_DETAILED then [OverflowLine(n - MAX_DETAILED)] else []
  }

  function ComposesPart(cs: seq<Record>): seq<string>
  {
    if cs == [] then [AVAILABLE + NatText(0)]
    else [AVAILABLE + NatText(|cs|)] + [ACTIVE_HEADER] + ComposeLines(Shown(cs)) + OverflowPart(|cs|)
  }

  function TotalLine(st: Stats): string
  {
    TOTAL + Display(st.totalComposes.GetOr(Int(0)))
  }

  function DistributionLine(entry: (Value, Value)): string
  {
    DISTRIBUTION_ITEM + Display(entry.0) + ": " + Display(entry.1)
  }

  function DistributionLines(d: seq<(Value, Value)>): (lines: seq<string>)
    ensures |lines| == |d|
    ensures forall k :: 0 <= k < |d| ==> lines[k] == DISTRIBUTION_ITEM + Display(d[k].0) + ": " + Display(d[k].1)
  {
    seq(|d|, k requires 0 <= k < |d| => DistributionLine(d[k]))
  }

  function DistributionPart(d: Option<seq<(Value, Value)>>): seq<string>
  {
    match d
    case None => []
    case Some(entries) => [DISTRIBUTION_HEADER] + DistributionLines(entries)
  }

  function StatsPart(st: Stats): seq<string>
  {
    [STATS_HEADER, TotalLine(st)] + DistributionPart(st.statusDistribution)
  }

  function ComposesLines(ctx: Context): seq<string>
  {
    if ctx.composes.Some? then ComposesPart(ctx.composes.value) else []
  }

  function StatsLines(ctx: Context): seq<string>
  {
    if ctx.stats.Some? then StatsPart(ctx.stats.value) else []
  }

  /** The `parts` list that `_format_context` joins. */
  function ContextLines(ctx: Context): seq<string>
  {
    ComposesLines(ctx) + StatsLines(ctx)
  }

  function ContextText(ctx: Context): string
  {
    Join(ContextLines(ctx), "\n")
  }

  // ---------------------------------------------------------------------------
  // `_format_context` itself

  /** `_format_context`: the composes lines, then the stats lines, joined with newlines. */
  method FormatContext(context: Context) returns (text: string)
    ensures text == ContextText(context)
  {
    var parts: seq<string> := [];
    if context.composes.Some? {
      var lines := ComposesSection(context.composes.value);
      parts := parts + lines;
      assert parts == ComposesLines(context);
    }
    if context.stats.Some? {
      var lines := StatsSection(context.stats.value);
      parts := parts + lines;
    }
    assert parts == ContextLines(context);
    text := Join(parts, "\n");
  }

  /** The lines `_format_context` appends for a `composes` entry. */
  method ComposesSection(composes: seq<Record>) returns (parts: seq<string>)
    ensures parts == ComposesPart(composes)
  {
    parts := [AVAILABLE + NatText(|composes|)];
    if composes != [] {
      parts := parts + [ACTIVE_HEADER];
      var details := ComposeDetails(composes[..Min(|composes|, MAX_DETAILED)]);
      parts := parts + details;
      if |composes| > MAX_DETAILED {
        parts := parts + [OVERFLOW + NatText(|composes| - MAX_DETAILED) + " más"];
      }
    }
  }

  /** The loop over `composes[:10]`: one line per compose, in order. */
  method ComposeDetails(shown: seq<Record>) returns (lines: seq<string>)
    ensures lines == ComposeLines(shown)
  {
    lines := [];
    for i := 0 to |shown|
      invariant lines == ComposeLines(shown[..i])
    {
      var compose := shown[i];
      var name := Get(compose, "name", Str("Unknown"));
      var status := Get(compose, "composeStatus", Str("unknown"));
      var project := Get(compose, "project_name", Str("Unknown"));
      assert ComposeLines(shown[..i + 1]) == ComposeLines(shown[..i]) + [ComposeLine(compose)];
      lines := lines + [COMPOSE_ITEM + Display(name) + " (" + Display(project) + "): " + Display(status)];
    }
    assert shown[..|shown|] == shown;
  }

  /** The lines `_format_context` appends for a `stats` entry. */
  method StatsSection(stats: Stats) returns (parts: seq<string>)
    ensures parts == StatsPart(stats)
  {
    parts := [STATS_HEADER];
    parts := parts + [TOTAL + Display(stats.totalComposes.GetOr(Int(0)))];
    if stats.statusDistribution.Some? {
      parts := parts + [DISTRIBUTION_HEADER];
      var distribution := stats.statusDistribution.value;
      for k := 0 to |distribution|
        invariant parts == [STATS_HEADER, TotalLine(stats)] + [DISTRIBUTION_HEADER] + DistributionLines(distribution[..k])
      {
        var (status, count) := distribution[k];
        assert DistributionLines(distribution[..k + 1]) ==
               DistributionLines(distribution[..k]) + [DistributionLine(distribution[k])];
        parts := parts + [DISTRIBUTION_ITEM + Display(status) + ": " + Display(count)];
      }
      assert distribution[..|distribution|] == distribution;
      AppendAssoc([STATS_HEADER, TotalLine(stats)], [DISTRIBUTION_HEADER], DistributionLines(distribution));
    }
  }

  // ---------------------------------------------------------------------------
  // What the context text says

  lemma StartsWithAppend(a: string, b: string)
    ensures StartsWith(a + b, a)
  {
    assert (a + b)[..|a|] == a;
  }

  lemma ComposeLinesTagged(cs: seq<Record>)
    ensures AllStartWith(ComposeLines(cs), COMPOSE_ITEM)
  {
    forall i | 0 <= i < |cs| ensures StartsWith(ComposeLines(cs)[i], COMPOSE_ITEM) {
      var c := cs[i];
      StartsWithAppend(COMPOSE_ITEM, ComposeLine(c)[|COMPOSE_ITEM|..]);
      assert ComposeLine(c) == COMPOSE_ITEM + ComposeLine(c)[|COMPOSE_ITEM|..];
    }
  }

  lemma DistributionLinesTagged(d: seq<(Value, Value)>)
    ensures AllStartWith(DistributionLines(d), DISTRIBUTION_ITEM)
  {
    forall k | 0 <= k < |d| ensures StartsWith(DistributionLines(d)[k], DISTRIBUTION_ITEM) {
      var line := DistributionLine(d[k]);
      assert line == DISTRIBUTION_ITEM + line[|DISTRIBUTION_ITEM|..];
      StartsWithAppend(DISTRIBUTION_ITEM, line[|DISTRIBUTION_ITEM|..]);
    }
  }

  /** A one-line group starting with `tag`. */
  lemma CountLine(line: string, tag: string, prefix: string)
    requires StartsWith(line, tag) && Distinguishable(tag, prefix)
    ensures CountStartingWith([line], prefix) == if tag == prefix then 1 else 0
  {
    CountTagged([line], tag, prefix);
  }

  lemma CountText(tag: string, rest: string, prefix: string)
    requires Distinguishable(tag, prefix)
    ensures CountStartingWith([tag + rest], prefix) == if tag == prefix then 1 else 0
  {
    StartsWithAppend(tag, rest);
    CountLine(tag + rest, tag, prefix);
  }

  /** Any two line starts are told apart by their first three characters. */
  lemma TagsApart(tag: string, prefix: string)
    requires tag in TAGS && prefix in TAGS
    ensures Distinguishable(tag, prefix)
  {
  }

  function Hits(tag: string, prefix: string, n: nat): nat
  {
    if tag == prefix then n else 0
  }

  lemma OverflowPartCount(n: nat, prefix: string)
    requires prefix in TAGS
    ensures CountStartingWith(OverflowPart(n), prefix) == if n > MAX_DETAILED then Hits(OVERFLOW, prefix, 1) else 0
  {
    if n > MAX_DETAILED {
      TagsApart(OVERFLOW, prefix);
      CountText(OVERFLOW, NatText(n - MAX_DETAILED) + " más", prefix);
      assert OverflowLine(n - MAX_DETAILED) == OVERFLOW + (NatText(n - MAX_DETAILED) + " más");
    }
  }

  lemma ComposeLinesCount(cs: seq<Record>, prefix: string)
    requires prefix in TAGS
    ensures CountStartingWith(ComposeLines(cs), prefix) == Hits(COMPOSE_ITEM, prefix, |cs|)
  {
    TagsApart(COMPOSE_ITEM, prefix);
    ComposeLinesTagged(cs);
    CountTagged(ComposeLines(cs), COMPOSE_ITEM, prefix);
  }

  /** How many composes lines start with one of the line starts. */
  lemma ComposesPartCount(cs: seq<Record>, prefix: string)
    requires prefix in TAGS
    ensures CountStartingWith(ComposesPart(cs), prefix) ==
              Hits(AVAILABLE, prefix, 1)
              + (if cs == [] then 0
                 else Hits(ACTIVE_HEADER, prefix, 1) + Hits(COMPOSE_ITEM, prefix, Min(|cs|, MAX_DETAILED))
                      + (if |cs| > MAX_DETAILED then Hits(OVERFLOW, prefix, 1) else 0))
  {
    var first := [AVAILABLE + NatText(|cs|)];
    HeadersCount(|cs|, prefix);
    if cs != [] {
      ComposeLinesCount(Shown(cs), prefix);
      OverflowPartCount(|cs|, prefix);
      CountConcat(first + [ACTIVE_HEADER], ComposeLines(Shown(cs)), prefix);
      CountConcat(first + [ACTIVE_HEADER] + ComposeLines(Shown(cs)), OverflowPart(|cs|), prefix);
    }
  }

  lemma HeadersCount(n: nat, prefix: string)
    requires prefix in TAGS
    ensures CountStartingWith([AVAILABLE + NatText(n)], prefix) == Hits(AVAILABLE, prefix, 1)
    ensures CountStartingWith([AVAILABLE + NatText(n)] + [ACTIVE_HEADER], prefix) ==
              Hits(AVAILABLE, prefix, 1) + Hits(ACTIVE_HEADER, prefix, 1)
  {
    TagsApart(AVAILABLE, prefix);
    TagsApart(ACTIVE_HEADER, prefix);
    CountText(AVAILABLE, NatText(n), prefix);
    CountText(ACTIVE_HEADER, "", prefix);
    assert ACTIVE_HEADER + "" == ACTIVE_HEADER;
    CountConcat([AVAILABLE + NatText(n)], [ACTIVE_HEADER], prefix);
  }

  /** How many stats lines start with one of the line starts. */
  lemma {:induction false} StatsPartCount(st: Stats, prefix: string)
    requires prefix in TAGS
    ensures CountStartingWith(StatsPart(st), prefix) ==
              Hits(STATS_HEADER, prefix, 1) + Hits(TOTAL, prefix, 1)
              + (match st.statusDistribution
                 case None => 0
                 case Some(d) => Hits(DISTRIBUTION_HEADER, prefix, 1) + Hits(DISTRIBUTION_ITEM, prefix, |d|))
  {
    TagsApart(STATS_HEADER, prefix);
    TagsApart(TOTAL, prefix);
    TagsApart(DISTRIBUTION_HEADER, prefix);
    TagsApart(DISTRIBUTION_ITEM, prefix);
    CountText(STATS_HEADER, "", prefix);
    assert STATS_HEADER + "" == STATS_HEADER;
    CountText(TOTAL, Display(st.totalComposes.GetOr(Int(0))), prefix);
    CountConcat([STATS_HEADER], [TotalLine(st)], prefix);
    assert [STATS_HEADER, TotalLine(st)] == [STATS_HEADER] + [TotalLine(st)];
    CountConcat([STATS_HEADER, TotalLine(st)], DistributionPart(st.statusDistribution), prefix);
    if st.statusDistribution.Some? {
      var d := st.statusDistribution.value;
      CountText(DISTRIBUTION_HEADER, "", prefix);
      assert DISTRIBUTION_HEADER + "" == DISTRIBUTION_HEADER;
      DistributionLinesTagged(d);
      CountTagged(DistributionLines(d), DISTRIBUTION_ITEM, prefix);
      CountConcat([DISTRIBUTION_HEADER], DistributionLines(d), prefix);
    }
  }

  /** The lines starting with `prefix` among those `composes` contributes. */
  function ComposesHits(composes: Option<seq<Record>>, prefix: string): nat
  {
    match composes
    case None => 0
    case Some(cs) =>
      Hits(AVAILABLE, prefix, 1)
      + (if cs == [] then 0
         else Hits(ACTIVE_HEADER, prefix, 1) + Hits(COMPOSE_ITEM, prefix, Min(|cs|, MAX_DETAILED))
              + (if |cs| > MAX_DETAILED then Hits(OVERFLOW, prefix, 1) else 0))
  }

  /** The lines starting with `prefix` among those `stats` contributes. */
  function StatsHits(stats: Option<Stats>, prefix: string): nat
  {
    match stats
    case None => 0
    case Some(st) =>
      Hits(STATS_HEADER, prefix, 1) + Hits(TOTAL, prefix, 1)
      + (match st.statusDistribution
         case None => 0
         case Some(d) => Hits(DISTRIBUTION_HEADER, prefix, 1) + Hits(DISTRIBUTION_ITEM, prefix, |d|))
  }

  lemma ContextCount(ctx: Context, prefix: string)
    requires prefix in TAGS
    ensures CountStartingWith(ContextLines(ctx), prefix) == ComposesHits(ctx.composes, prefix) + StatsHits(ctx.stats, prefix)
  {
    CountConcat(ComposesLines(ctx), StatsLines(ctx), prefix);
    if ctx.composes.Some? { ComposesPartCount(ctx.composes.value, prefix); }
    if ctx.stats.Some? { StatsPartCount(ctx.stats.value, prefix); }
  }

  /** With a `composes` entry of n composes, the text starts with "Composes disponibles: n", and only then. */
  lemma FormatStartsWithCount(ctx: Context)
    ensures CountStartingWith(ContextLines(ctx), AVAILABLE) == if ctx.composes.Some? then 1 else 0
    ensures ctx.composes.Some? ==>
              ContextLines(ctx)[0] == AVAILABLE + NatText(|ctx.composes.value|) &&
              StartsWith(ContextText(ctx), AVAILABLE + NatText(|ctx.composes.value|))
  {
    ContextCount(ctx, AVAILABLE);
    if ctx.composes.Some? {
      assert ContextLines(ctx)[0] == ComposesPart(ctx.composes.value)[0];
      JoinPrefix(ContextLines(ctx), "\n");
    }
  }

  /** Exactly min(n, 10) compose lines, and none without a `composes` entry. */
  lemma FormatComposeItemCount(ctx: Context)
    ensures CountStartingWith(ContextLines(ctx), COMPOSE_ITEM) ==
              if ctx.composes.Some? then Min(|ctx.composes.value|, MAX_DETAILED) else 0
  {
    ContextCount(ctx, COMPOSE_ITEM);
  }

  /** The "Composes activos:" header is there exactly when there is at least one compose. */
  lemma FormatActiveHeader(ctx: Context)
    ensures CountStartingWith(ContextLines(ctx), ACTIVE_HEADER) ==
              if ctx.composes.Some? && ctx.composes.value != [] then 1 else 0
  {
    ContextCount(ctx, ACTIVE_HEADER);
  }

  /** After the header, the compose lines describe the first min(n, 10) composes in order. */
  lemma FormatComposeDetails(ctx: Context)
    requires ctx.composes.Some? && ctx.composes.value != []
    ensures ContextLines(ctx)[1] == ACTIVE_HEADER
    ensures 2 + Min(|ctx.composes.value|, MAX_DETAILED) <= |ContextLines(ctx)|
    ensures ContextLines(ctx)[2..2 + Min(|ctx.composes.value|, MAX_DETAILED)] ==
              ComposeLines(ctx.composes.value[..Min(|ctx.composes.value|, MAX_DETAILED)])
  {
    var cs := ctx.composes.value;
    var head := [AVAILABLE + NatText(|cs|)] + [ACTIVE_HEADER];
    var details := ComposeLines(Shown(cs));
    var rest := OverflowPart(|cs|) + StatsLines(ctx);
    assert ContextLines(ctx) == head + details + rest;
    Slices3(head, details, rest);
  }

  /** The overflow line "  ... y k más", k = n - 10, is there exactly when n > 10, right after the ten. */
  lemma FormatOverflow(ctx: Context)
    ensures CountStartingWith(ContextLines(ctx), OVERFLOW) ==
              if ctx.composes.Some? && |ctx.composes.value| > MAX_DETAILED then 1 else 0
    ensures ctx.composes.Some? && |ctx.composes.value| > MAX_DETAILED ==>
              ContextLines(ctx)[2 + MAX_DETAILED] == OVERFLOW + NatText(|ctx.composes.value| - MAX_DETAILED) + " más"
  {
    ContextCount(ctx, OVERFLOW);
    if ctx.composes.Some? && |ctx.composes.value| > MAX_DETAILED {
      assert ContextLines(ctx)[2 + MAX_DETAILED] == ComposesPart(ctx.composes.value)[2 + MAX_DETAILED];
    }
  }

  /** A stats header and exactly one total line exactly when there is a `stats` entry. */
  lemma FormatStatsCount(ctx: Context)
    ensures CountStartingWith(ContextLines(ctx), STATS_HEADER) == if ctx.stats.Some? then 1 else 0
    ensures CountStartingWith(ContextLines(ctx), TOTAL) == if ctx.stats.Some? then 1 else 0
  {
    ContextCount(ctx, STATS_HEADER);
    ContextCount(ctx, TOTAL);
  }

  /** The distribution header exactly when there is a distribution, and one line per entry. */
  lemma FormatDistributionCount(ctx: Context)
    ensures CountStartingWith(ContextLines(ctx), DISTRIBUTION_HEADER) ==
              if ctx.stats.Some? && ctx.stats.value.statusDistribution.Some? then 1 else 0
    ensures CountStartingWith(ContextLines(ctx), DISTRIBUTION_ITEM) ==
              if ctx.stats.Some? && ctx.stats.value.statusDistribution.Some?
              then |ctx.stats.value.statusDistribution.value| else 0
  {
    ContextCount(ctx, DISTRIBUTION_HEADER);
    ContextCount(ctx, DISTRIBUTION_ITEM);
  }

  /** The stats section follows the composes lines; its total reads 0 when `total_composes` is missing. */
  lemma FormatStatsLayout(ctx: Context)
    requires ctx.stats.Some?
    ensures ContextLines(ctx)[|ComposesLines(ctx)|] == STATS_HEADER
    ensures ContextLines(ctx)[|ComposesLines(ctx)| + 1] == TOTAL + Display(ctx.stats.value.totalComposes.GetOr(Int(0)))
  {
    var at := |ComposesLines(ctx)|;
    var st := ctx.stats.value;
    assert ContextLines(ctx)[at] == StatsPart(st)[0];
    assert ContextLines(ctx)[at + 1] == StatsPart(st)[1];
  }

  /** After the distribution header come the entries' lines, one per entry in the dict's order, to the end. */
  lemma FormatDistributionOrder(ctx: Context)
    requires ctx.stats.Some? && ctx.stats.value.statusDistribution.Some?
    ensures |ContextLines(ctx)| == |ComposesLines(ctx)| + 3 + |ctx.stats.value.statusDistribution.value|
    ensures ContextLines(ctx)[|ComposesLines(ctx)| + 2..] ==
              [DISTRIBUTION_HEADER] + DistributionLines(ctx.stats.value.statusDistribution.value)
  {
    var st := ctx.stats.value;
    var before := ComposesLines(ctx);
    var rest := [DISTRIBUTION_HEADER] + DistributionLines(st.statusDistribution.value);
    assert ContextLines(ctx) == before + [STATS_HEADER, TotalLine(st)] + rest;
    Slices3(before, [STATS_HEADER, TotalLine(st)], rest);
  }

  /** A context with neither entry formats as the empty text. */
  lemma FormatEmpty(ctx: Context)
    requires ctx.composes.None? && ctx.stats.None?
    ensures ContextText(ctx) == ""
  {
    assert ContextLines(ctx) == [];
  }

  // ---------------------------------------------------------------------------
  // `ask`

  /** The messages `ask` sends: the system prompt, the context when truthy, the question. */
  function MessagesFor(question: string, context: Option<Context>): (m: seq<Message>)
    ensures |m| == if ContextTruthy(context) then 3 else 2
    ensures m[0] == SystemMessage(SYSTEM_PROMPT) && m[|m| - 1] == HumanMessage(question)
    ensures forall i :: 0 <= i < |m| - 1 ==> m[i].SystemMessage?
    ensures ContextTruthy(context) ==> m[1] == SystemMessage("Contexto actual:\n" + ContextText(context.value))
  {
    [SystemMessage(SYSTEM_PROMPT)]
    + (if ContextTruthy(context) then [SystemMessage("Contexto actual:\n" + ContextText(context.value))] else [])
    + [HumanMessage(question)]
  }

  method BuildMessages(question: string, context: Option<Context>) returns (messages: seq<Message>)
    ensures messages == MessagesFor(question, context)
  {
    messages := [SystemMessage(SYSTEM_PROMPT)];
    if ContextTruthy(context) {
      var contextText := FormatContext(context.value);
      messages := messages + [SystemMessage("Contexto actual:\n" + contextText)];
    }
    messages := messages + [HumanMessage(question)];
  }

  const ERROR_HEAD: string := "❌ Error al procesar tu pregunta: "
  const ERROR_TAIL: string := "\n\nVerifica que GPT-OSS esté corriendo en Ollama."

  /** The reply shown when the model call raised: the error's text between a fixed head and tail. */
  function ErrorReply(e: string): (r: string)
    ensures |r| == |ERROR_HEAD| + |e| + |ERROR_TAIL|
    ensures r[..|ERROR_HEAD|] == ERROR_HEAD && r[|ERROR_HEAD| + |e|..] == ERROR_TAIL
    ensures r[|ERROR_HEAD|..|ERROR_HEAD| + |e|] == e
  {
    var r := ERROR_HEAD + e + ERROR_TAIL;
    assert r[..|ERROR_HEAD|] == ERROR_HEAD;
    assert r[|ERROR_HEAD|..|ERROR_HEAD| + |e|] == e;
    assert r[|ERROR_HEAD| + |e|..] == ERROR_TAIL;
    r
  }

  /** What `ask` returns for the model's outcome: the reply, or the error text. */
  function Answer(outcome: Result<string, string>): string
  {
    match outcome
    case Ok(content) => content
    case Err(e) => ErrorReply(e)
  }

  method Ask(question: string, context: Option<Context>, llm: Model) returns (reply: string)
    ensures llm(MessagesFor(question, context)).Ok? ==> reply == llm(MessagesFor(question, context)).value
    ensures llm(MessagesFor(question, context)).Err? ==> reply == ErrorReply(llm(MessagesFor(question, context)).error)
  {
    var messages := BuildMessages(question, context);
    var response := llm(messages);
    match response
    case Ok(content) =>
      reply := content;
    case Err(e) =>
      reply := ErrorReply(e);
  }

  // ---------------------------------------------------------------------------
  // `analyze_compose_issue`

  const ISSUE_INTRO: string := "Analiza este problema de un compose en Dokploy:\n\nCompose: "
  const STATUS_LABEL: string := "\nEstado actual: "
  const LOGS_LABEL: string := "\nLogs de error:\n"
  const ISSUE_FOOTER: string :=
    "\nProporciona:\n1. Posibles causas del problema\n2. Pasos para diagnosticar\n3. Soluciones recomendadas\n"

  function IssueHeader(name: string, status: string): string
  {
    ISSUE_INTRO + name + STATUS_LABEL + status + "\n"
  }

  function LogsSection(logs: string): string
  {
    LOGS_LABEL + logs + "\n"
  }

  /** The diagnosis prompt: the header, the logs section when the logs are a non-empty text, the fixed request. */
  function IssuePromptText(name: string, status: string, errorLogs: Option<string>): string
  {
    var head := IssueHeader(name, status);
    (if TruthyText(errorLogs) then head + LOGS_LABEL + errorLogs.value + "\n" else head) + ISSUE_FOOTER
  }

  function IssueMiddle(errorLogs: Option<string>): string
  {
    if TruthyText(errorLogs) then LogsSection(errorLogs.value) else ""
  }

  lemma Regroup<T>(head: seq<T>, tag: seq<T>, body: seq<T>, nl: seq<T>, footer: seq<T>)
    ensures head + tag + body + nl + footer == head + (tag + body + nl) + footer
  {
  }

  lemma IssuePromptSplit(name: string, status: string, errorLogs: Option<string>)
    ensures IssuePromptText(name, status, errorLogs) == IssueHeader(name, status) + IssueMiddle(errorLogs) + ISSUE_FOOTER
  {
    if TruthyText(errorLogs) {
      Regroup(IssueHeader(name, status), LOGS_LABEL, errorLogs.value, "\n", ISSUE_FOOTER);
    }
  }

  /** Where the two fields sit in any text that starts with the header. */
  lemma HeaderFields<T>(intro: seq<T>, name: seq<T>, tag: seq<T>, status: seq<T>, nl: seq<T>, rest: seq<T>)
    ensures var p := intro + name + tag + status + nl + rest;
            p[|intro|..|intro| + |name|] == name &&
            p[|intro| + |name| + |tag|..|intro| + |name| + |tag| + |status|] == status
  {
    var p := intro + name + tag + status + nl + rest;
    assert p[|intro|..|intro| + |name|] == name;
    assert p[|intro| + |name| + |tag|..|intro| + |name| + |tag| + |status|] == status;
  }

  /** The prompt opens with the header naming the compose and its status, at fixed places. */
  lemma IssuePromptNamesCompose(name: string, status: string, errorLogs: Option<string>)
    ensures var p := IssuePromptText(name, status, errorLogs);
            |p| >= |IssueHeader(name, status)| &&
            p[..|IssueHeader(name, status)|] == IssueHeader(name, status) &&
            p[|ISSUE_INTRO|..|ISSUE_INTRO| + |name|] == name &&
            p[|ISSUE_INTRO| + |name| + |STATUS_LABEL|..|ISSUE_INTRO| + |name| + |STATUS_LABEL| + |status|] == status
  {
    var head := IssueHeader(name, status);
    var rest := IssueMiddle(errorLogs) + ISSUE_FOOTER;
    IssuePromptSplit(name, status, errorLogs);
    AppendAssoc(head, IssueMiddle(errorLogs), ISSUE_FOOTER);
    assert IssuePromptText(name, status, errorLogs) == head + rest;
    assert (head + rest)[..|head|] == head;
    HeaderFields(ISSUE_INTRO, name, STATUS_LABEL, status, "\n", rest);
  }

  /** Between the header and the request sits the logs section exactly when the logs are a non-empty text. */
  lemma IssuePromptLogs(name: string, status: string, errorLogs: Option<string>)
    ensures var p := IssuePromptText(name, status, errorLogs);
            |p| == |IssueHeader(name, status)| + |IssueMiddle(errorLogs)| + |ISSUE_FOOTER| &&
            p[|IssueHeader(name, status)|..|p| - |ISSUE_FOOTER|] ==
              (if TruthyText(errorLogs) then LogsSection(errorLogs.value) else "") &&
            p[|p| - |ISSUE_FOOTER|..] == ISSUE_FOOTER
  {
    IssuePromptSplit(name, status, errorLogs);
    Slices3(IssueHeader(name, status), IssueMiddle(errorLogs), ISSUE_FOOTER);
  }

  method IssuePrompt(composeName: string, composeStatus: string, errorLogs: Option<string>) returns (prompt: string)
    ensures prompt == IssuePromptText(composeName, composeStatus, errorLogs)
  {
    prompt := ISSUE_INTRO + composeName + STATUS_LABEL + composeStatus + "\n";
    if errorLogs.Some? && errorLogs.value != "" {
      prompt := prompt + LOGS_LABEL + errorLogs.value + "\n";
    }
    prompt := prompt + ISSUE_FOOTER;
  }

  /** Asks the model about the prompt, with no context. */
  method AnalyzeComposeIssue(composeName: string, composeStatus: string, errorLogs: Option<string>, llm: Model)
    returns (reply: string)
    ensures reply == Answer(llm(MessagesFor(IssuePromptText(composeName, composeStatus, errorLogs), None)))
  {
    var prompt := IssuePrompt(composeName, composeStatus, errorLogs);
    reply := Ask(prompt, None, llm);
  }
}
