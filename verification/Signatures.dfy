// The eight injection signatures, built from literals, gaps and choices.
module Signatures {
  import opened Regex
  import opened Quarantine

  type Unbracketed = r: Regex | Plain(r) witness Space

  // \s+
  const GAP: Unbracketed := Then(Space, Spaces)

  // A literal without brackets.
  function Word(text: string): Unbracketed
    requires '[' !in text && ']' !in text
  {
    assert forall i | 0 <= i < |text| :: text[i] in text;
    Lit(text)
  }

  // Parts with white space between them: whatever the parts, a signature.
  function Phrase(first: Unbracketed, rest: Unbracketed): Signature {
    assert Marked(GAP) && Plain(Then(GAP, rest)) && Marked(Then(GAP, rest));
    Then(first, Then(GAP, rest))
  }

  function Joined(first: Unbracketed, rest: Unbracketed): Unbracketed {
    Then(first, rest)
  }

  // (...)?
  function Optional(r: Unbracketed): Unbracketed {
    Maybe(r)
  }

  // (...\s+)?
  function Aside(r: Unbracketed): Unbracketed {
    assert Plain(Then(r, GAP));
    Maybe(Then(r, GAP))
  }

  function Or(left: Unbracketed, right: Unbracketed): Unbracketed {
    Either(left, right)
  }

  function OneOf3(a: Unbracketed, b: Unbracketed, c: Unbracketed): Unbracketed {
    Or(a, Or(b, c))
  }

  function OneOf4(a: Unbracketed, b: Unbracketed, c: Unbracketed, d: Unbracketed): Unbracketed {
    Or(a, OneOf3(b, c, d))
  }

  const IGNORE_SCOPE: Unbracketed := Optional(Or(Joined(Word("all"), GAP), Joined(Word("any"), GAP)))
  const IGNORE_WHICH: Unbracketed := OneOf3(Word("previous"), Word("prior"), Word("above"))
  const IGNORE_WHAT: Unbracketed := OneOf3(Word("instructions"), Word("prompts"), Word("rules"))
  const IGNORE_RULES: Signature := Phrase(Word("ignore"), Joined(IGNORE_SCOPE, Phrase(IGNORE_WHICH, IGNORE_WHAT)))

  const DISREGARD_WHICH: Unbracketed := OneOf3(Word("prior"), Word("previous"), Word("the"))
  const DISREGARD_WHAT: Unbracketed := OneOf3(Word("instructions"), Word("rules"), Word("policy"))
  const DISREGARD_RULES: Signature :=
    Phrase(Word("disregard"), Joined(Aside(Word("all")), Phrase(DISREGARD_WHICH, DISREGARD_WHAT)))

  const REVEAL_VERB: Unbracketed := OneOf4(Word("reveal"), Word("print"), Word("output"), Word("repeat"))
  const REVEAL_WHAT: Unbracketed :=
    OneOf3(Phrase(Word("system"), Word("prompt")), Word("instructions"), Word("rules"))
  const REVEAL_PROMPT: Signature := Phrase(REVEAL_VERB, Joined(Aside(Word("your")), REVEAL_WHAT))

  const YOU_ARE_WHAT: Unbracketed := OneOf3(Word("unrestricted"), Word("unfiltered"), Word("jailbroken"))
  const ARTICLE: Unbracketed := Joined(Word("a"), Optional(Word("n")))
  const YOU_ARE_NOW: Signature :=
    Phrase(Word("you"), Phrase(Word("are"), Phrase(Word("now"), Joined(Aside(ARTICLE), YOU_ARE_WHAT))))

  const OVERRIDE_WHAT: Unbracketed := OneOf4(Word("policy"), Word("rules"), Word("guardrails"), Word("controls"))
  const OVERRIDE_POLICY: Signature :=
    Phrase(Word("override"), Joined(Aside(Word("the")), Joined(Aside(Word("security")), OVERRIDE_WHAT)))

  const EXFILTRATE_VERB: Unbracketed := OneOf4(Word("exfiltrate"), Word("send"), Word("post"), Word("upload"))
  const EXFILTRATE_WHAT: Unbracketed := OneOf4(Word("data"), Word("credentials"), Word("secrets"), Word("keys"))
  const EXFILTRATE: Signature :=
    Phrase(EXFILTRATE_VERB, Joined(Aside(Word("this")), Phrase(EXFILTRATE_WHAT, Word("to"))))

  const RULE_WORDS: Unbracketed :=
    Or(Joined(Word("instruction"), Optional(Word("s"))), Joined(Word("rule"), Optional(Word("s"))))
  const NEW_INSTRUCTIONS: Signature :=
    Phrase(Word("new"), Joined(Aside(Word("system")), Joined(RULE_WORDS, Joined(Spaces, Word(":")))))

  const ROLES: Unbracketed := OneOf4(Word("system"), Word("assistant"), Word("tool"), Word("policy"))

  // A tag: the angle bracket marks it.
  function Tag(rest: Unbracketed): Signature {
    assert "<"[0] in "<" && Marked(Lit("<"));
    Then(Word("<"), rest)
  }

  const ROLE_TAG: Signature :=
    Tag(Joined(Optional(Word("/")), Joined(Spaces, Joined(ROLES, Joined(Spaces, Word(">"))))))

  const INJECTION_SIGNATURES: seq<Signature> := [
    IGNORE_RULES, DISREGARD_RULES, REVEAL_PROMPT, YOU_ARE_NOW,
    OVERRIDE_POLICY, EXFILTRATE, NEW_INSTRUCTIONS, ROLE_TAG]

  const QUARANTINED: Token := "[QUARANTINED_INSTRUCTION]"
}
