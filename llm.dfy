/** The prompt helpers of the chat assistant (services/llm.py): the persona's system
    prompt, the keyword lookup in the knowledge corpus and the decisions around the chat
    call. The chat completion itself is an oracle. */
module Llm {
  import opened Wrappers
  import PyStr

  /** A role entry of `system_prompts.json`. */
  type RoleData = map<string, string>

  /** The loaded `system_prompts.json`: the optional `common_rules` text and the roles
      (an absent `roles` key reads as no roles). */
  datatype PromptConfig = PromptConfig(commonRules: Option<string>, roles: map<string, RoleData>)

  /** The chat completion: system message and user message to the reply text, or `None`
      when the call raises. */
  type Chat = (string, string) -> Option<string>

  /** The service: the chat client (absent without an API key or client library), the
      model name, the prompts and the corpus as `(title, text)` pairs in file order. */
  datatype LlmService = LlmService(client: Option<Chat>, model: string, prompts: PromptConfig,
                                   corpus: seq<(string, string)>)
  {
    predicate Enabled() {
      client.Some?
    }
  }

  const DefaultBase := "你是一個眼科助手。"
  const ContextHeader := "【參考醫學資料】\n"
  const ServiceDownText := "抱歉，AI 服務暫時無法連線。"

  /** The role entry a persona selects: its own, else the doctor's, else an empty one. */
  function RoleFor(cfg: PromptConfig, persona: string): (role: RoleData)
    ensures persona in cfg.roles ==> role == cfg.roles[persona]
    ensures persona !in cfg.roles && "doctor" in cfg.roles ==> role == cfg.roles["doctor"]
    ensures persona !in cfg.roles && "doctor" !in cfg.roles ==> role == map[]
  {
    if persona in cfg.roles then cfg.roles[persona]
    else if "doctor" in cfg.roles then cfg.roles["doctor"]
    else map[]
  }

  /** `get_system_prompt`: the common rules (or the default assistant line), a blank line
      and the selected role's prompt (or nothing). */
  function SystemPrompt(cfg: PromptConfig, persona: string := "doctor"): (p: string)
    ensures var base := cfg.commonRules.GetOr(DefaultBase);
            PyStr.StartsWith(p, base + "\n\n") && p[|base| + 2..] == (
              if persona in cfg.roles && "prompt" in cfg.roles[persona] then cfg.roles[persona]["prompt"]
              else if persona !in cfg.roles && "doctor" in cfg.roles && "prompt" in cfg.roles["doctor"]
              then cfg.roles["doctor"]["prompt"]
              else "")
  {
    var base := cfg.commonRules.GetOr(DefaultBase);
    var role := RoleFor(cfg, persona);
    var rolePrompt := if "prompt" in role then role["prompt"] else "";
    assert (base + "\n\n" + rolePrompt)[|base| + 2..] == rolePrompt;
    base + "\n\n" + rolePrompt
  }

  /** A corpus entry matches a keyword occurring in its title or in its text's first 20
      characters. */
  predicate Matches(entry: (string, string), keyword: string) {
    PyStr.Contains(entry.0, keyword) || PyStr.Contains(PyStr.Take(entry.1, 20), keyword)
  }

  /** The texts of the matching entries, in corpus order. */
  function Hits(corpus: seq<(string, string)>, keyword: string): (hits: seq<string>)
    ensures |hits| <= |corpus|
    ensures forall h :: h in hits ==> exists e :: e in corpus && Matches(e, keyword) && e.1 == h
    ensures forall e :: e in corpus && Matches(e, keyword) ==> e.1 in hits
  {
    if |corpus| == 0 then []
    else
      var rest := Hits(corpus[1..], keyword);
      assert forall e :: e in corpus[1..] ==> e in corpus;
      assert forall e :: e in corpus ==> e == corpus[0] || e in corpus[1..];
      if Matches(corpus[0], keyword) then [corpus[0].1] + rest else rest
  }

  /** The first matching entry's text leads the hits. */
  lemma {:induction false} FirstHitLeads(corpus: seq<(string, string)>, keyword: string, k: nat)
    requires k < |corpus| && Matches(corpus[k], keyword)
    requires forall j :: 0 <= j < k ==> !Matches(corpus[j], keyword)
    ensures |Hits(corpus, keyword)| > 0 && Hits(corpus, keyword)[0] == corpus[k].1
    decreases k
  {
    if k > 0 {
      FirstHitLeads(corpus[1..], keyword, k - 1);
    }
  }

  /** The hits of two corpus parts are the first part's hits followed by the second's, so
      the hits keep corpus order and repeat a text once per matching entry. */
  lemma {:induction false} HitsConcat(a: seq<(string, string)>, b: seq<(string, string)>, keyword: string)
    ensures Hits(a + b, keyword) == Hits(a, keyword) + Hits(b, keyword)
  {
    if |a| > 0 {
      assert (a + b)[0] == a[0] && (a + b)[1..] == a[1..] + b;
      HitsConcat(a[1..], b, keyword);
    } else {
      assert a + b == b;
    }
  }

  /** `get_knowledge_context`: nothing for an empty keyword or when nothing matches,
      otherwise the header and at most the first two hits, one per line. */
  function KnowledgeContext(corpus: seq<(string, string)>, keyword: string): (ctx: string)
    ensures keyword == "" ==> ctx == ""
    ensures keyword != "" && (forall e :: e in corpus ==> !Matches(e, keyword)) ==> ctx == ""
    ensures keyword != "" && |Hits(corpus, keyword)| > 0 ==>
      var hits := Hits(corpus, keyword);
      ctx == ContextHeader + PyStr.Join(hits[..if |hits| < 2 then |hits| else 2], "\n")
  {
    if keyword == "" then ""
    else
      var hits := Hits(corpus, keyword);
      if |hits| > 0 then (assert hits[0] in hits; ContextHeader + PyStr.Join(hits[..if |hits| < 2 then |hits| else 2], "\n")) else ""
  }

  /** The system message for a chat: the persona's prompt, followed by the knowledge
      context when a keyword is given. */
  function SystemMessage(svc: LlmService, persona: string, contextKeyword: Option<string>): (m: string)
    ensures !(contextKeyword.Some? && contextKeyword.value != "") ==> m == SystemPrompt(svc.prompts, persona)
    ensures contextKeyword.Some? && contextKeyword.value != "" ==>
      m == SystemPrompt(svc.prompts, persona) + "\n\n" + KnowledgeContext(svc.corpus, contextKeyword.value)
  {
    var systemMsg := SystemPrompt(svc.prompts, persona);
    if contextKeyword.Some? && contextKeyword.value != "" then
      systemMsg + "\n\n" + KnowledgeContext(svc.corpus, contextKeyword.value)
    else systemMsg
  }

  /** `generate_response`: an echo naming the model when disabled, otherwise the client's
      stripped reply, or an apology when the call raises. */
  function GenerateResponse(svc: LlmService, userText: string, persona: string := "doctor",
                            contextKeyword: Option<string> := None): (reply: string)
    ensures !svc.Enabled() ==> reply == "[系統模擬 (" + svc.model + ")]: " + userText
    ensures svc.Enabled() ==>
      var answer := svc.client.value(SystemMessage(svc, persona, contextKeyword), userText);
      reply == (if answer.Some? then PyStr.Strip(answer.value) else ServiceDownText)
  {
    if svc.client.None? then "[系統模擬 (" + svc.model + ")]: " + userText
    else
      match svc.client.value(SystemMessage(svc, persona, contextKeyword), userText)
      case None => ServiceDownText
      case Some(content) => PyStr.Strip(content)
  }
}
