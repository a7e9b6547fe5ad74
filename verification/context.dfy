/** `ContextGenerator`: each chunk is sent to a language model, which answers
    with a summary, key concepts, keywords, a topic and questions; these are
    written around the chunk's text to form the text that is embedded.

    The language model is a set of functions of the prompt and the attempt
    number (the remote service is not modelled); parsing a reply (`eval` for
    OpenAI, `json.loads` for Anthropic) is a function from the reply text to
    a value. */
module Enrichment {
  import opened Wrappers
  import opened Strs
  import opened Values
  import opened Chunks
  import Retry

  /** `EnrichedChunk`: the original chunk and what the model said about it.
      The fields hold whatever value the model's reply carried under each
      key, as the source stores `result.get(...)` unchecked. */
  datatype EnrichedChunk = EnrichedChunk(
    original: Chunk,
    summary: Value,
    keyConcepts: Value,
    keywords: Value,
    topic: Value,
    questions: Value,
    enhancedText: string)

  /** A prompt template, as `str.format` sees it: literal text and the two
      replacement fields `{text}` and `{doc_context}` (`{{` and `}}` are
      already the literal braces they stand for). */
  datatype Segment = Lit(s: string) | TextSlot | ContextSlot

  /** A `ContextGenerator` and the outside world it talks to. `prompts` are
      the templates by name. `openai` and `anthropic` give the text of the
      model's reply to a prompt at a given attempt (or an error);
      `evalReply` and `parseJson` turn reply text into a value;
      `summarize` is the one-shot call behind the document summary; `show`
      is Python's `str` on a value that is not a string. */
  datatype Generator = Generator(
    useProvider: string,
    prompts: map<string, seq<Segment>>,
    openai: (string, nat) -> Result<string, string>,
    anthropic: (string, nat) -> Result<string, string>,
    evalReply: string -> Result<Value, string>,
    parseJson: string -> Result<Value, string>,
    summarize: string -> Result<string, string>,
    show: Value -> string)

  // ---------------------------------------------------------------------
  // Prompt templates
  // ---------------------------------------------------------------------

  const ReplyShape: string :=
    "{\n  \"contextual_summary\": \"...\",\n  \"key_concepts\": [...],\n  \"keywords\": [...],\n  \"topic\": \"...\",\n  \"questions\": [...]\n}"

  const DefaultIntro: string :=
    "Analise o seguinte trecho de um documento e forneça:\n\n1. Um resumo contextual em 2-3 frases que capture a essência e o propósito do texto\n2. Uma lista de 3-5 conceitos-chave principais\n3. Uma lista de 5-8 palavras-chave relevantes\n4. O tópico principal em uma única frase\n5. 2-3 perguntas que este trecho pode responder\n\nTEXTO:\n"

  const DefaultOutro: string :=
    "\n\nResponda APENAS no seguinte formato JSON:\n{\n  \"contextual_summary\": \"resumo aqui\",\n  \"key_concepts\": [\"conceito1\", \"conceito2\", \"conceito3\"],\n  \"keywords\": [\"palavra1\", \"palavra2\", \"palavra3\"],\n  \"topic\": \"tópico principal\",\n  \"questions\": [\"pergunta1?\", \"pergunta2?\"]\n}"

  const DetailedIntro: string :=
    "Como um especialista em análise de documentos, analise profundamente o seguinte texto:\n\nTEXTO:\n"

  const DetailedOutro: string :=
    "\n\nForneça uma análise detalhada incluindo:\n1. RESUMO CONTEXTUAL: Explique o propósito e significado deste trecho no contexto maior\n2. CONCEITOS-CHAVE: Identifique os 3-5 conceitos mais importantes e relevantes\n3. PALAVRAS-CHAVE: Liste 5-8 termos que melhor representam o conteúdo\n4. TÓPICO PRINCIPAL: Categorize o assunto principal em uma frase clara\n5. PERGUNTAS RESPONDIDAS: Que perguntas específicas este texto pode responder?\n\nResponda em formato JSON:\n"
    + ReplyShape

  const TechnicalIntro: string :=
    "Analise este trecho técnico com foco em:\n- Terminologia técnica específica\n- Conceitos e princípios importantes\n- Relações entre componentes/conceitos\n- Aplicações práticas\n\nTEXTO:\n"

  const TechnicalOutro: string :=
    "\n\nFormato de resposta JSON:\n" + ReplyShape

  const DetailedHeading: string := "\n\nCONTEXTO DO DOCUMENTO: "

  /** The shape of a template without the document context: an
      introduction ending in `TEXTO:`, the chunk's text, and the
      instructions on the reply. */
  function Plain(intro: string, outro: string): seq<Segment> {
    [Lit(intro), TextSlot, Lit(outro)]
  }

  /** The shape of the `"detailed"` template: the document context follows
      the chunk's text under its own heading. */
  function WithContext(intro: string, heading: string, outro: string): seq<Segment> {
    [Lit(intro), TextSlot, Lit(heading), ContextSlot, Lit(outro)]
  }

  /** `_load_prompts`. */
  function LoadPrompts(): map<string, seq<Segment>> {
    map[
      "default" := Plain(DefaultIntro, DefaultOutro),
      "detailed" := WithContext(DetailedIntro, DetailedHeading, DetailedOutro),
      "technical" := Plain(TechnicalIntro, TechnicalOutro)
    ]
  }

  /** `str.format(text=..., doc_context=...)`. */
  function Fill(t: seq<Segment>, text: string, docContext: string): string
    decreases |t|
  {
    if t == [] then ""
    else
      var head := match t[0]
        case Lit(s) => s
        case TextSlot => text
        case ContextSlot => docContext;
      head + Fill(t[1..], text, docContext)
  }

  /** `doc_context or "Não especificado"`: a missing or empty context is
      replaced by the placeholder. */
  function ContextOrDefault(docContext: Option<string>): (r: string)
    ensures docContext.None? || docContext.value == [] ==> r == "Não especificado"
    ensures docContext.Some? && docContext.value != [] ==> r == docContext.value
  {
    if docContext.None? || docContext.value == [] then "Não especificado" else docContext.value
  }

  /** `self.prompts.get(template, self.prompts["default"]).format(...)`. */
  function Prompt(prompts: map<string, seq<Segment>>, name: string, text: string,
                  docContext: Option<string>): string
    requires "default" in prompts
  {
    Fill(Selected(prompts, name), text, ContextOrDefault(docContext))
  }

  /** A template without a `{doc_context}` field gives the same text
      whatever the context. */
  lemma {:induction false} FillIgnoresContext(t: seq<Segment>, text: string, c1: string, c2: string)
    requires forall i :: 0 <= i < |t| ==> !t[i].ContextSlot?
    ensures Fill(t, text, c1) == Fill(t, text, c2)
    decreases |t|
  {
    if t != [] {
      FillIgnoresContext(t[1..], text, c1, c2);
    }
  }

  /** A plain template shows the text right after its introduction,
      whatever the context. */
  lemma FillPlain(intro: string, outro: string, text: string, ctx: string, other: string)
    ensures OccursAt(Fill(Plain(intro, outro), text, ctx), text, |intro|)
    ensures Fill(Plain(intro, outro), text, ctx) == Fill(Plain(intro, outro), text, other)
  {
    var t := Plain(intro, outro);
    assert t[1..][1..] == [Lit(outro)];
    assert Fill(t[1..][1..], text, ctx) == outro;
    OccursInMiddle(intro, text, outro);
    FillIgnoresContext(t, text, ctx, other);
  }

  /** The template with a context shows the text right after its
      introduction and the context right after its heading. */
  lemma FillWithContext(intro: string, heading: string, outro: string, text: string, ctx: string)
    ensures OccursAt(Fill(WithContext(intro, heading, outro), text, ctx), text, |intro|)
    ensures OccursAt(Fill(WithContext(intro, heading, outro), text, ctx), ctx, |intro| + |text| + |heading|)
  {
    var t := WithContext(intro, heading, outro);
    assert t[1..][1..][1..][1..] == [Lit(outro)];
    assert Fill(t[1..][1..][1..][1..], text, ctx) == outro;
    assert Fill(t[1..][1..][1..], text, ctx) == ctx + outro;
    assert Fill(t[1..][1..], text, ctx) == heading + (ctx + outro);
    assert Fill(t[1..], text, ctx) == text + (heading + (ctx + outro));
    var p := Fill(t, text, ctx);
    assert p == intro + (text + (heading + (ctx + outro)));
    assert p == intro + text + (heading + ctx + outro);
    OccursInMiddle(intro, text, heading + ctx + outro);
    assert p == (intro + text + heading) + ctx + outro;
    OccursInMiddle(intro + text + heading, ctx, outro);
  }

  /** A template of one of the two shapes `_load_prompts` uses. */
  predicate Shaped(t: seq<Segment>) {
    (|t| == 3 && t[0].Lit? && t[1].TextSlot? && t[2].Lit?)
    || (|t| == 5 && t[0].Lit? && t[1].TextSlot? && t[2].Lit? && t[3].ContextSlot? && t[4].Lit?)
  }

  /** The loaded templates: `"default"` and `"technical"` are plain, only
      `"detailed"` asks for the document context. */
  lemma LoadedPrompts()
    ensures LoadPrompts().Keys == {"default", "detailed", "technical"}
    ensures LoadPrompts()["default"] == Plain(DefaultIntro, DefaultOutro)
    ensures LoadPrompts()["technical"] == Plain(TechnicalIntro, TechnicalOutro)
    ensures LoadPrompts()["detailed"] == WithContext(DetailedIntro, DetailedHeading, DetailedOutro)
  {
  }

  /** The template a name selects: the named one, or `"default"`. */
  function Selected(prompts: map<string, seq<Segment>>, name: string): seq<Segment>
    requires "default" in prompts
  {
    if name in prompts then prompts[name] else prompts["default"]
  }

  /** Where the chunk's text sits in a prompt: right after the template's
      introduction. */
  function TextAt(t: seq<Segment>): nat {
    if t != [] && t[0].Lit? then |t[0].s| else 0
  }

  /** Every prompt shows the chunk's text verbatim right after the
      template's introduction, at a place that neither the text nor the
      context moves (an unknown template name selects `"default"`); a
      template without a context field gives the same prompt whatever the
      context, and one with it shows the context (or `Não especificado`)
      right after its heading. */
  lemma PromptShape(prompts: map<string, seq<Segment>>, name: string, text: string,
                    docContext: Option<string>, other: Option<string>)
    requires "default" in prompts && Shaped(Selected(prompts, name))
    ensures OccursAt(Prompt(prompts, name, text, docContext), text, TextAt(Selected(prompts, name)))
    ensures |Selected(prompts, name)| == 3 ==>
      Prompt(prompts, name, text, docContext) == Prompt(prompts, name, text, other)
    ensures |Selected(prompts, name)| == 5 ==>
      OccursAt(Prompt(prompts, name, text, docContext), ContextOrDefault(docContext),
               TextAt(Selected(prompts, name)) + |text| + |Selected(prompts, name)[2].s|)
  {
    var t := Selected(prompts, name);
    var ctx := ContextOrDefault(docContext);
    if |t| == 3 {
      assert t == Plain(t[0].s, t[2].s);
      FillPlain(t[0].s, t[2].s, text, ctx, ContextOrDefault(other));
    } else {
      assert t == WithContext(t[0].s, t[2].s, t[4].s);
      FillWithContext(t[0].s, t[2].s, t[4].s, text, ctx);
    }
  }

  // ---------------------------------------------------------------------
  // Calling the model
  // ---------------------------------------------------------------------

  /** `re.search(r'\{.*\}', content, re.DOTALL)`: from the first `{` to the
      last `}` after it, or nothing. */
  function ExtractJsonBlock(content: string): Option<string> {
    var i := Find(content, "{", 0);
    if i < 0 then None
    else
      var j := RFindChar(content, '}', i + 1, |content|);
      if j < 0 then None else Some(content[i..j + 1])
  }

  /** The block found is the longest one: it starts at the first `{`, ends
      at the last `}`, and nothing is found exactly when no `{` comes before
      a `}`. */
  lemma ExtractJsonBlockSpan(content: string)
    ensures ExtractJsonBlock(content).None? <==>
      forall a, b :: 0 <= a < b < |content| && content[a] == '{' ==> content[b] != '}'
    ensures ExtractJsonBlock(content).Some? ==>
      exists a, b :: 0 <= a < b < |content| && content[a] == '{' && content[b] == '}'
        && ExtractJsonBlock(content).value == content[a..b + 1]
        && (forall k :: 0 <= k < a ==> content[k] != '{')
        && (forall k :: b < k < |content| ==> content[k] != '}')
  {
    FindIsFirst(content, "{", 0);
    assert forall k :: 0 <= k < |content| ==> (OccursAt(content, "{", k) <==> content[k] == '{') by {
      forall k | 0 <= k < |content|
        ensures OccursAt(content, "{", k) <==> content[k] == '{'
      {
        assert content[k..k + 1] == [content[k]];
      }
    }
    var i := Find(content, "{", 0);
    if i >= 0 {
      FindOccurs(content, "{", 0);
      assert content[i] == '{';
    }
  }

  /** One attempt of `_call_openai` or `_call_anthropic`: the request and
      the parsing of its reply, both inside the retried function. Any
      provider name other than `"openai"` takes the Anthropic path. */
  function Attempt(gen: Generator, prompt: string, n: nat): Result<Value, string> {
    if gen.useProvider == "openai" then
      match gen.openai(prompt, n)
      case Failure(e) => Failure(e)
      case Success(content) => gen.evalReply(content)
    else
      match gen.anthropic(prompt, n)
      case Failure(e) => Failure(e)
      case Success(content) =>
        match ExtractJsonBlock(content)
        case None => Failure("Não foi possível extrair JSON da resposta")
        case Some(block) => gen.parseJson(block)
  }

  function Attempts(gen: Generator, prompt: string): nat -> Result<Value, string> {
    (n: nat) => Attempt(gen, prompt, n)
  }

  // ---------------------------------------------------------------------
  // The enhanced text
  // ---------------------------------------------------------------------

  /** Python's `str(v)` inside an f-string. */
  function Shown(show: Value -> string, v: Value): string {
    if v.VStr? then v.s else show(v)
  }

  /** Iterating over a value: a list gives its items, a string its
      characters, a dictionary its keys in insertion order; anything else
      cannot be iterated here. */
  function Items(v: Value): Option<seq<Value>> {
    match v
    case VList(items) => Some(items)
    case VStr(s) => Some(seq(|s|, i requires 0 <= i < |s| => VStr([s[i]])))
    case VDict(_, keys) => Some(seq(|keys|, i requires 0 <= i < |keys| => VStr(keys[i])))
    case _ => None
  }

  /** `sep.join(v)`: only strings can be joined. */
  function JoinField(sep: string, v: Value): (r: Option<string>)
    ensures r.Some? <==> Items(v).Some? && forall x <- Items(v).value :: x.VStr?
  {
    match Items(v)
    case None => None
    case Some(items) =>
      if forall x <- items :: x.VStr? then
        Some(Join(sep, seq(|items|, i requires 0 <= i < |items| => items[i].s)))
      else None
  }

  /** Joining a dictionary joins its keys, in insertion order. */
  lemma JoinDictKeys(sep: string, entries: map<string, Value>, keys: seq<string>)
    ensures JoinField(sep, VDict(entries, keys)) == Some(Join(sep, keys))
  {
    var items := Items(VDict(entries, keys)).value;
    assert seq(|items|, i requires 0 <= i < |items| => items[i].s) == keys;
  }

  /** `chr(10).join(f"- {q}" for q in v)`. */
  function QuestionLines(show: Value -> string, v: Value): (r: Option<string>)
    ensures r.Some? <==> Items(v).Some?
  {
    match Items(v)
    case None => None
    case Some(items) => Some(Join("\n", seq(|items|, i requires 0 <= i < |items| => "- " + Shown(show, items[i]))))
  }

  /** The part of `_create_enhanced_text` before the chunk's text. */
  function Preamble(summary: string, topic: string, concepts: string): string {
    "CONTEXTO: " + summary + "\n\nTÓPICO: " + topic + "\n\nCONCEITOS-CHAVE: " + concepts + "\n\nCONTEÚDO:\n"
  }

  /** The part of `_create_enhanced_text` after the chunk's text. */
  function Postscript(questions: string, keywords: string): string {
    "\n\nPERGUNTAS RELACIONADAS:\n" + questions + "\n\nPALAVRAS-CHAVE: " + keywords
  }

  function Layout(summary: string, topic: string, concepts: string, text: string,
                  questions: string, keywords: string): string
  {
    Preamble(summary, topic, concepts) + text + Postscript(questions, keywords)
  }

  /** The layout starts with the summary, shows the chunk's text verbatim
      right after the `CONTEÚDO:` header and ends with the keywords; two
      chunks with the same context get the same enhanced text only when
      their texts are equal. */
  lemma LayoutShape(summary: string, topic: string, concepts: string, text: string, other: string,
                    questions: string, keywords: string)
    ensures StartsWith(Layout(summary, topic, concepts, text, questions, keywords), "CONTEXTO: " + summary)
    ensures EndsWith(Preamble(summary, topic, concepts), "\n\nCONTEÚDO:\n")
    ensures OccursAt(Layout(summary, topic, concepts, text, questions, keywords), text,
                     |Preamble(summary, topic, concepts)|)
    ensures StartsWith(Postscript(questions, keywords), "\n\nPERGUNTAS RELACIONADAS:\n")
    ensures EndsWith(Layout(summary, topic, concepts, text, questions, keywords), keywords)
    ensures Layout(summary, topic, concepts, text, questions, keywords)
              == Layout(summary, topic, concepts, other, questions, keywords)
            ==> text == other
  {
    var pre := Preamble(summary, topic, concepts);
    var post := Postscript(questions, keywords);
    var e := Layout(summary, topic, concepts, text, questions, keywords);
    var head := "CONTEXTO: " + summary;
    var p1 := head + "\n\nTÓPICO: ";
    var p2 := p1 + topic;
    var p3 := p2 + "\n\nCONCEITOS-CHAVE: ";
    var p4 := p3 + concepts;
    ConcatEnds(head, "\n\nTÓPICO: ");
    AffixesGrow(p1, head, [], topic);
    AffixesGrow(p2, head, [], "\n\nCONCEITOS-CHAVE: ");
    AffixesGrow(p3, head, [], concepts);
    AffixesGrow(p4, head, [], "\n\nCONTEÚDO:\n");
    ConcatEnds(p4, "\n\nCONTEÚDO:\n");
    AffixesGrow(pre, head, [], text);
    AffixesGrow(pre + text, head, [], post);
    OccursInMiddle(pre, text, post);
    var q1 := "\n\nPERGUNTAS RELACIONADAS:\n";
    ConcatEnds(q1, questions);
    AffixesGrow(q1 + questions, q1, [], "\n\nPALAVRAS-CHAVE: ");
    AffixesGrow(q1 + questions + "\n\nPALAVRAS-CHAVE: ", q1, [], keywords);
    ConcatEnds(q1 + questions + "\n\nPALAVRAS-CHAVE: ", keywords);
    AffixesGrow(post, keywords, pre + text, []);
    var e2 := Layout(summary, topic, concepts, other, questions, keywords);
    if e == e2 {
      ConcatEnds(pre + text, post);
      ConcatEnds(pre + other, post);
      assert pre + text == pre + other;
      assert text == (pre + text)[|pre|..] == (pre + other)[|pre|..] == other;
    }
  }

  /** `_create_enhanced_text`, or `None` where building it raises: key
      concepts or keywords that are not strings, or a field that cannot be
      iterated. */
  function EnhancedText(show: Value -> string, text: string, context: Record): (r: Option<string>)
    ensures r.Some? <==>
      JoinField(", ", Get(context, "key_concepts", VList([]))).Some?
      && Items(Get(context, "questions", VList([]))).Some?
      && JoinField(", ", Get(context, "keywords", VList([]))).Some?
  {
    var concepts := JoinField(", ", Get(context, "key_concepts", VList([])));
    var questions := QuestionLines(show, Get(context, "questions", VList([])));
    var keywords := JoinField(", ", Get(context, "keywords", VList([])));
    if concepts.None? || questions.None? || keywords.None? then None
    else
      Some(Layout(Shown(show, Get(context, "contextual_summary", VStr(""))),
                  Shown(show, Get(context, "topic", VStr(""))),
                  concepts.value, text, questions.value, keywords.value))
  }

  // ---------------------------------------------------------------------
  // generate_context_for_chunk
  // ---------------------------------------------------------------------

  /** What is returned when anything goes wrong: the chunk keeps its own
      text and gets the error summary and the `Desconhecido` topic. */
  function Placeholder(chunk: Chunk): EnrichedChunk {
    EnrichedChunk(chunk, VStr("Erro ao gerar contexto"), VList([]), VList([]),
                  VStr("Desconhecido"), VList([]), chunk.text)
  }

  /** The enriched chunk for a given (retried) reply of the model: a reply
      that is not a dictionary, or whose fields cannot be laid out, falls
      back to the placeholder, as the exception it raises does. The chunk
      is always kept, and its text always appears verbatim in the enhanced
      text. */
  function FromReply(show: Value -> string, chunk: Chunk, reply: Result<Value, string>): (r: EnrichedChunk)
    ensures r.original == chunk
    ensures reply.Failure? || !reply.value.VDict? ==> r == Placeholder(chunk)
  {
    match reply
    case Failure(_) => Placeholder(chunk)
    case Success(v) =>
      if !v.VDict? then Placeholder(chunk)
      else
        match EnhancedText(show, chunk.text, v.entries)
        case None => Placeholder(chunk)
        case Some(e) =>
          var d := v.entries;
          EnrichedChunk(chunk, Get(d, "contextual_summary", VStr("")), Get(d, "key_concepts", VList([])),
                        Get(d, "keywords", VList([])), Get(d, "topic", VStr("")),
                        Get(d, "questions", VList([])), e)
  }

  /** Whatever the reply, the enhanced text holds the chunk's text
      verbatim; when the reply is a usable dictionary, a missing field
      takes its default (`""` for the summary and topic, `[]` for the
      lists) and the enhanced text is laid out around the chunk. */
  lemma FromReplyShape(show: Value -> string, chunk: Chunk, reply: Result<Value, string>)
    ensures exists k :: OccursAt(FromReply(show, chunk, reply).enhancedText, chunk.text, k)
    ensures reply.Success? && reply.value.VDict? ==>
      var e := FromReply(show, chunk, reply);
      var d := reply.value.entries;
      e == Placeholder(chunk) || (
        ("contextual_summary" !in d ==> e.summary == VStr(""))
        && ("topic" !in d ==> e.topic == VStr(""))
        && ("key_concepts" !in d ==> e.keyConcepts == VList([]))
        && ("keywords" !in d ==> e.keywords == VList([]))
        && ("questions" !in d ==> e.questions == VList([])))
  {
    var e := FromReply(show, chunk, reply);
    if e.enhancedText == chunk.text {
      assert OccursAt(e.enhancedText, chunk.text, 0);
    } else {
      var d := reply.value.entries;
      var s := Shown(show, Get(d, "contextual_summary", VStr("")));
      var t := Shown(show, Get(d, "topic", VStr("")));
      var c := JoinField(", ", Get(d, "key_concepts", VList([]))).value;
      var q := QuestionLines(show, Get(d, "questions", VList([]))).value;
      var k := JoinField(", ", Get(d, "keywords", VList([]))).value;
      LayoutShape(s, t, c, chunk.text, chunk.text, q, k);
      assert OccursAt(e.enhancedText, chunk.text, |Preamble(s, t, c)|);
    }
  }

  /** `generate_context_for_chunk` as a function of its inputs. */
  function Enrich(gen: Generator, chunk: Chunk, docContext: Option<string>, template: string): (r: EnrichedChunk)
    requires "default" in gen.prompts
    ensures r.original == chunk
  {
    FromReply(gen.show, chunk, Retry.Retried(Attempts(gen, Prompt(gen.prompts, template, chunk.text, docContext))))
  }

  /** The placeholder is returned when all three attempts fail; otherwise
      the first successful attempt's reply is the one laid out. */
  lemma EnrichRetries(gen: Generator, chunk: Chunk, docContext: Option<string>, template: string)
    requires "default" in gen.prompts
    ensures var call := Attempts(gen, Prompt(gen.prompts, template, chunk.text, docContext));
      (forall a :: 0 <= a < Retry.MaxAttempts ==> call(a).Failure?) ==>
        Enrich(gen, chunk, docContext, template) == Placeholder(chunk)
    ensures var call := Attempts(gen, Prompt(gen.prompts, template, chunk.text, docContext));
      call(0).Success? ==> Enrich(gen, chunk, docContext, template) == FromReply(gen.show, chunk, call(0))
  {
    var call := Attempts(gen, Prompt(gen.prompts, template, chunk.text, docContext));
    Retry.RetryFromFirst(call, 0, Retry.MaxAttempts);
  }

  /** `generate_context_for_chunk`: build the prompt, call the model with
      retries, and lay out the reply. */
  method GenerateContextForChunk(gen: Generator, chunk: Chunk, docContext: Option<string>, template: string)
    returns (enriched: EnrichedChunk)
    requires "default" in gen.prompts
    ensures enriched == Enrich(gen, chunk, docContext, template)
  {
    var t := if template in gen.prompts then gen.prompts[template] else gen.prompts["default"];
    var prompt := Fill(t, chunk.text, ContextOrDefault(docContext));
    var reply, _ := Retry.CallWithRetry(Attempts(gen, prompt));
    enriched := FromReply(gen.show, chunk, reply);
  }

  /** `generate_contexts_batch`: one enriched chunk per chunk, in order. */
  method GenerateContextsBatch(gen: Generator, chunks: seq<Chunk>, docContext: Option<string>, template: string)
    returns (enriched: seq<EnrichedChunk>)
    requires "default" in gen.prompts
    ensures |enriched| == |chunks|
    ensures forall i :: 0 <= i < |chunks| ==> enriched[i] == Enrich(gen, chunks[i], docContext, template)
    ensures forall i :: 0 <= i < |chunks| ==> enriched[i].original == chunks[i]
  {
    enriched := [];
    for i := 0 to |chunks|
      invariant |enriched| == i
      invariant forall j {:trigger enriched[j]} :: 0 <= j < i ==> enriched[j] == Enrich(gen, chunks[j], docContext, template)
    {
      var e := GenerateContextForChunk(gen, chunks[i], docContext, template);
      enriched := enriched + [e];
    }
  }

  // ---------------------------------------------------------------------
  // generate_document_summary
  // ---------------------------------------------------------------------

  /** A long document is sampled: its first and its last 5000 characters
      around a `...` line. */
  function SummarySample(fullText: string): (r: string)
    ensures |fullText| <= 10000 ==> r == fullText
    ensures |fullText| > 10000 ==>
      |r| == 10005 && r[..5000] == fullText[..5000] && r[5000..5005] == "\n...\n"
      && r[5005..] == fullText[|fullText| - 5000..]
  {
    if |fullText| > 10000 then fullText[..5000] + "\n...\n" + fullText[|fullText| - 5000..]
    else fullText
  }

  function SummaryPrompt(fullText: string, maxLength: int): string {
    "Gere um resumo conciso (máximo " + IntToString(maxLength)
    + " caracteres) deste documento,\ncapturando seu propósito principal, tópicos abordados e contexto geral:\n\n"
    + SummarySample(fullText)
    + "\n\nResponda apenas com o resumo, sem formatação adicional."
  }

  /** What the summary is for a given reply: the reply stripped, or the
      fixed fallback text when the call failed. Either way it neither starts
      nor ends with whitespace, and stripping it again changes nothing. */
  function SummaryFrom(reply: Result<string, string>): (r: string)
    ensures reply.Failure? ==> r == "Documento sem resumo disponível"
    ensures r == [] || (!IsSpace(r[0]) && !IsSpace(r[|r| - 1]))
  {
    match reply
    case Failure(_) => "Documento sem resumo disponível"
    case Success(content) => StripSlice(content); Strip(content)
  }

  /** `generate_document_summary`: one call, no retry. */
  function DocumentSummary(gen: Generator, fullText: string, maxLength: int): string {
    SummaryFrom(gen.summarize(SummaryPrompt(fullText, maxLength)))
  }

  /** A successful summary is the reply without its surrounding whitespace,
      and stripping the result again changes nothing. */
  lemma SummaryIsStripped(reply: Result<string, string>)
    ensures reply.Success? ==> SummaryFrom(reply) == Strip(reply.value)
    ensures Strip(SummaryFrom(reply)) == SummaryFrom(reply)
  {
    var r := SummaryFrom(reply);
    match reply
    case Failure(_) =>
      assert FirstNonSpace(r, 0) == 0;
      assert EndNonSpace(r, 0, |r|) == |r|;
    case Success(content) =>
      StripIdempotent(content);
  }
}
