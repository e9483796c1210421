/** `extract_email_intent`: the addresses in a prompt and whether the prompt
    asks for an email to be sent, written or drafted. */
module Intent {
  import opened Options
  import opened Text
  import opened EmailPattern

  /** The intent record. `subject` is never filled in. */
  datatype EmailIntent = EmailIntent(isEmailRequest: bool, emails: seq<string>, subject: string, message: string)

  const EmailKeywords: seq<string> := ["send email", "write email", "draft email", "email to", "send an email"]

  function ExtractEmailIntent(prompt: string): (r: EmailIntent)
    ensures r.isEmailRequest <==> exists k | 0 <= k < |EmailKeywords| :: Occurs(EmailKeywords[k], Lower(prompt))
    ensures r.message == (if r.isEmailRequest then prompt else "")
    ensures r.subject == ""
    ensures r.emails == FindEmails(prompt)
    ensures forall q | 0 <= q < |r.emails| :: Occurs(r.emails[q], prompt) && AddressShaped(r.emails[q])
  {
    var emails := FindEmails(prompt);
    if OccursAny(EmailKeywords, Lower(prompt))
    then EmailIntent(true, emails, "", prompt)
    else EmailIntent(false, emails, "", "")
  }

  /** Every request keyword contains the word "email", so a prompt flagged as
      an email request always mentions "email". */
  lemma {:induction false} RequestMentionsEmail(prompt: string)
    requires ExtractEmailIntent(prompt).isEmailRequest
    ensures Occurs("email", Lower(prompt))
  {
    var k :| 0 <= k < |EmailKeywords| && Occurs(EmailKeywords[k], Lower(prompt));
    var w := EmailKeywords[k];
    if k == 0 {
      assert w[5..10] == "email";
      OccursAt("email", w, 5);
    } else if k == 1 || k == 2 {
      assert w[6..11] == "email";
      OccursAt("email", w, 6);
    } else if k == 3 {
      assert w[0..5] == "email";
      OccursAt("email", w, 0);
    } else {
      assert w[8..13] == "email";
      OccursAt("email", w, 8);
    }
    OccursTrans("email", w, Lower(prompt));
  }

  /** "send email to alice@example.com about the report" is an email request
      naming exactly that one address. */
  lemma SendEmailToAlice()
    ensures var p := "send email to alice@example.com about the report";
      ExtractEmailIntent(p) == EmailIntent(true, ["alice@example.com"], "", p)
  {
    AliceFound();
    AliceAsks();
  }

  /** The prompt of `SendEmailToAlice`, in pieces: text, local part, '@',
      domain, '.', top-level part, text. */
  function AlicePieces(): seq<string> {
    ["send email to ", "alice", "@", "example", ".", "com", " about the report"]
  }

  function AlicePrompt(): (s: string)
    ensures s == "send email to alice@example.com about the report"
  {
    var ps := AlicePieces();
    ps[0] + AliceAddress() + ps[6]
  }

  function AliceAddress(): (a: string)
    ensures a == "alice@example.com"
  {
    var ps := AlicePieces();
    ps[1] + ps[2] + ps[3] + ps[4] + ps[5]
  }

  /** Character facts about the prompt of `SendEmailToAlice`. */
  lemma AliceChars()
    ensures var s := AlicePrompt();
      && |s| == 48 && s[19] == '@' && s[27] == '.'
      && (forall x | 0 <= x < 14 || 31 <= x < |s| :: s[x] != '@')
      && !InClass(s[13], LocalPart) && !IsWordChar(s[13])
      && !InClass(s[31], DomainPart) && !InClass(s[31], TopLevel) && !IsWordChar(s[31])
      && (forall x | 14 <= x < 19 :: InClass(s[x], LocalPart) && s[x] != '@')
      && (forall x | 20 <= x < 27 :: InClass(s[x], DomainPart))
      && (forall x | 28 <= x < 31 :: InClass(s[x], TopLevel) && s[x] != '.')
      && IsWordChar(s[14]) && IsWordChar(s[30])
  {
    AliceOutside();
    AliceInside();
  }

  /** No '@' in the text around the address. */
  lemma AliceOutside()
    ensures var s := AlicePrompt();
      && |s| == 48
      && (forall x | 0 <= x < 14 || 31 <= x < |s| :: s[x] != '@')
  {
    var ps := AlicePieces();
    var s := AlicePrompt();
    forall x | 0 <= x < 14 ensures s[x] != '@' {
      assert s[x] == ps[0][x] && ps[0][x] in ps[0];
    }
    forall x | 31 <= x < |s| ensures s[x] != '@' {
      assert s[x] == ps[6][x - 31] && ps[6][x - 31] in ps[6];
    }
  }

  /** The classes of the characters of the address. */
  lemma AliceInside()
    ensures var s := AlicePrompt();
      && |s| == 48 && s[19] == '@' && s[27] == '.' && s[13] == ' ' && s[31] == ' '
      && (forall x | 14 <= x < 19 :: InClass(s[x], LocalPart) && s[x] != '@')
      && (forall x | 20 <= x < 27 :: InClass(s[x], DomainPart))
      && (forall x | 28 <= x < 31 :: InClass(s[x], TopLevel) && s[x] != '.')
      && IsWordChar(s[14]) && IsWordChar(s[30])
  {
    var ps := AlicePieces();
    var s := AlicePrompt();
    var addr := AliceAddress();
    forall x | 14 <= x < 19 ensures InClass(s[x], LocalPart) && s[x] != '@' {
      assert s[x] == addr[x - 14] == ps[1][x - 14] && ps[1][x - 14] in ps[1];
    }
    forall x | 20 <= x < 27 ensures InClass(s[x], DomainPart) {
      assert s[x] == addr[x - 14] == ps[3][x - 20] && ps[3][x - 20] in ps[3];
    }
    forall x | 28 <= x < 31 ensures InClass(s[x], TopLevel) && s[x] != '.' {
      assert s[x] == addr[x - 14] == ps[5][x - 28] && ps[5][x - 28] in ps[5];
    }
  }

  /** The engine reports "alice@example.com" at position 14. */
  lemma AliceMatch()
    ensures MatchAt(AlicePrompt(), 14) == Some(Hit(14, 19, 27, 31))
  {
    var s := AlicePrompt();
    var h := Hit(14, 19, 27, 31);
    AliceChars();
    assert AllIn(s, 14, 19, LocalPart) && AllIn(s, 20, 27, DomainPart) && AllIn(s, 28, 31, TopLevel);
    assert Boundary(s, 14) && Boundary(s, 31);
    assert IsTail(s, 19, 27, 31);
    assert IsHit(s, h);
    var m := MatchAt(s, 14);
    assert m.Some? && m.value.at == 19;
  }

  lemma AliceFound()
    ensures FindEmails(AlicePrompt()) == ["alice@example.com"]
  {
    var s := AlicePrompt();
    var h := Hit(14, 19, 27, 31);
    AliceChars();
    ScanSkip(s, 0, 14);
    AliceMatch();
    ScanNoAt(s, 31);
    assert Scan(s, 0) == [h];
    assert s[14..31] == AliceAddress();
  }

  lemma AliceAsks()
    ensures Occurs(EmailKeywords[0], Lower(AlicePrompt()))
  {
    var ps := AlicePieces();
    var s := AlicePrompt();
    forall x | 0 <= x < 14 ensures Lower(s)[x] == s[x] {
      assert s[x] == ps[0][x] && ps[0][x] in ps[0];
    }
    assert Lower(s)[0..10] == s[0..10] == EmailKeywords[0];
    OccursAt(EmailKeywords[0], Lower(s), 0);
  }
}

/** The local part of `get_ai_response`: an ordered chain of keyword tests on
    the lower-cased prompt, the first that matches choosing a canned reply;
    and, before it, the optional language-model answer. */
module Responder {
  import opened Text
  import opened EmailPattern
  import opened Intent

  /** The branches of the chain, in the order they are tried. */
  datatype Rule = Greeting | Wellbeing | Help | Thanks | Farewell | EmailTopic | Identity | Clock | Echo

  function Rank(rule: Rule): nat {
    match rule
    case Greeting => 0
    case Wellbeing => 1
    case Help => 2
    case Thanks => 3
    case Farewell => 4
    case EmailTopic => 5
    case Identity => 6
    case Clock => 7
    case Echo => 8
  }

  /** The keywords each branch looks for; the default branch has none. */
  function Keywords(rule: Rule): seq<string> {
    match rule
    case Greeting => ["hello", "hi", "hey", "greetings"]
    case Wellbeing => ["how are you", "how're you"]
    case Help => ["help", "assist", "support"]
    case Thanks => ["thank", "thanks"]
    case Farewell => ["bye", "goodbye", "see you"]
    case EmailTopic => ["email"]
    case Identity => ["name", "who are you"]
    case Clock => ["time", "date"]
    case Echo => []
  }

  /** The branch the if/elif chain takes for an already lower-cased prompt:
      one whose keyword occurs, with no keyword of any earlier branch occurring. */
  function Classify(lower: string): (r: Rule)
    ensures r != Echo ==> OccursAny(Keywords(r), lower)
    ensures forall q: Rule | Rank(q) < Rank(r) :: !OccursAny(Keywords(q), lower)
  {
    if OccursAny(Keywords(Greeting), lower) then Greeting
    else if OccursAny(Keywords(Wellbeing), lower) then Wellbeing
    else if OccursAny(Keywords(Help), lower) then Help
    else if OccursAny(Keywords(Thanks), lower) then Thanks
    else if OccursAny(Keywords(Farewell), lower) then Farewell
    else if Occurs("email", lower) then
      assert Keywords(EmailTopic)[0] == "email";
      EmailTopic
    else if OccursAny(Keywords(Identity), lower) then Identity
    else if OccursAny(Keywords(Clock), lower) then Clock
    else Echo
  }

  /** The chain takes branch `rule` exactly when one of its keywords occurs
      and no keyword of an earlier branch does. */
  lemma ClassifyIff(lower: string, rule: Rule)
    ensures Classify(lower) == rule <==>
      && (rule != Echo ==> OccursAny(Keywords(rule), lower))
      && (forall q: Rule | Rank(q) < Rank(rule) :: !OccursAny(Keywords(q), lower))
  {
  }

  const GreetingReply := "Hello! I'm your AI Assistant. How can I help you today?"
  const WellbeingReply := "I'm doing great! Ready to assist you with your tasks."
  const HelpReply := "I can help you with:\n\U{2022} Answering questions\n\U{2022} Drafting emails\n\U{2022} Providing information\n\U{2022} General conversation\n\nJust ask me anything!"
  const ThanksReply := "You're welcome! Is there anything else I can help you with?"
  const FarewellReply := "Goodbye! Have a great day! Feel free to come back anytime."
  const RecipientsPrefix := "I can help you send an email to "
  const RecipientsSuffix := ". However, email functionality requires n8n integration. For now, I can help you draft the content!"
  const AskRecipientReply := "I'd be happy to help you draft an email. Who should I address it to, and what's the main topic?"
  const EmailOfferReply := "I can assist with email-related tasks. Would you like me to help you draft an email?"
  const IdentityReply := "I'm an AI Assistant powered by Flask and integrated with automation workflows. I'm here to help you!"
  const ClockPrefix := "Current date and time: "
  const EchoPrefix := "I received your message: \""
  const EchoSuffix := "\"\n\nI'm a demo AI assistant. For advanced features like email automation, please configure the n8n integration or add an OpenAI API key."

  /** The email branch: offer help unless the prompt asks for an email;
      otherwise ask for a recipient when it names no address, and when it
      names some, a reply that opens with the recipients sentence and
      contains every address found. */
  function EmailReply(prompt: string): (r: string)
    ensures !ExtractEmailIntent(prompt).isEmailRequest ==> r == EmailOfferReply
    ensures ExtractEmailIntent(prompt).isEmailRequest && |ExtractEmailIntent(prompt).emails| == 0 ==> r == AskRecipientReply
    ensures ExtractEmailIntent(prompt).isEmailRequest && |ExtractEmailIntent(prompt).emails| > 0 ==>
      && BlockAt(RecipientsPrefix, r, 0)
      && forall q | 0 <= q < |ExtractEmailIntent(prompt).emails| :: Occurs(ExtractEmailIntent(prompt).emails[q], r)
  {
    var intent := ExtractEmailIntent(prompt);
    if intent.isEmailRequest then
      if |intent.emails| > 0 then
        var joined := Join(intent.emails, ", ");
        forall q | 0 <= q < |intent.emails| ensures Occurs(intent.emails[q], RecipientsPrefix + joined + RecipientsSuffix) {
          JoinContainsEach(intent.emails, ", ", q);
          OccursInSuffix(intent.emails[q], RecipientsPrefix, joined);
          OccursInPrefix(intent.emails[q], RecipientsPrefix + joined, RecipientsSuffix);
        }
        assert (RecipientsPrefix + joined + RecipientsSuffix)[..|RecipientsPrefix|] == RecipientsPrefix;
        RecipientsPrefix + joined + RecipientsSuffix
      else AskRecipientReply
    else EmailOfferReply
  }

  /** The keyword chain of `get_ai_response`; `clock` is the formatted
      current date and time the clock branch reports. */
  function LocalReply(prompt: string, clock: string): (r: string)
    ensures |r| > 0
  {
    match Classify(Lower(prompt))
    case Greeting => GreetingReply
    case Wellbeing => WellbeingReply
    case Help => HelpReply
    case Thanks => ThanksReply
    case Farewell => FarewellReply
    case EmailTopic => EmailReply(prompt)
    case Identity => IdentityReply
    case Clock => ClockPrefix + clock
    case Echo => EchoPrefix + prompt + EchoSuffix
  }

  /** A greeting keyword anywhere in the prompt, even inside another word,
      wins over every later keyword. */
  lemma GreetingWins(prompt: string, clock: string)
    requires OccursAny(Keywords(Greeting), Lower(prompt))
    ensures LocalReply(prompt, clock) == GreetingReply
  {
  }

  /** "hi" inside "this" is a greeting, so any prompt containing "this",
      whatever else it asks, is answered with the greeting. */
  lemma HiInsideThis(prompt: string, clock: string)
    requires Occurs("this", Lower(prompt))
    ensures LocalReply(prompt, clock) == GreetingReply
  {
    assert "this"[1..3] == "hi";
    OccursAt("hi", "this", 1);
    OccursTrans("hi", "this", Lower(prompt));
    assert Keywords(Greeting)[1] == "hi";
  }

  /** A request to send an email that ends in "this" gets the greeting, not
      the email branch. */
  lemma EmailAboutThis(clock: string)
    ensures LocalReply("send email to bob@example.com about this", clock) == GreetingReply
  {
    var p := "send email to bob@example.com about this";
    var lower := Lower(p);
    assert lower[37] == 'h' && lower[38] == 'i';
    assert lower[37..39] == "hi";
    OccursAt("hi", lower, 37);
    assert Keywords(Greeting)[1] == "hi";
  }

  /** "hello there" gets the greeting. */
  lemma HelloThere(clock: string)
    ensures LocalReply("hello there", clock) == GreetingReply
  {
    var lower := Lower("hello there");
    assert lower[0..5] == "hello";
    OccursAt("hello", lower, 0);
    assert Keywords(Greeting)[0] == "hello";
  }

  /** "xyzzy plugh" matches no keyword, so it is echoed back. */
  lemma XyzzyPlugh(clock: string)
    ensures LocalReply("xyzzy plugh", clock) == EchoPrefix + "xyzzy plugh" + EchoSuffix
  {
    var p := "xyzzy plugh";
    assert forall ch | ch in p :: !IsUpper(ch);
    assert Lower(p) == p;
    forall q: Rule ensures !OccursAny(Keywords(q), p) {
      forall k | 0 <= k < |Keywords(q)| ensures !Occurs(Keywords(q)[k], p) {
        var w := Keywords(q)[k];
        var c := if 'e' in w then 'e' else if 'o' in w then 'o' else if 't' in w then 't'
          else if 'i' in w then 'i' else if 'a' in w then 'a' else if 'b' in w then 'b' else 'n';
        assert c in w;
        MissingChar(w, p, c);
      }
    }
    ClassifyIff(p, Echo);
  }

  /** The email branch is taken exactly when "email" occurs in the
      lower-cased prompt and none of the five earlier branches matched; its
      reply then depends on the intent alone. */
  lemma EmailBranch(prompt: string, clock: string)
    ensures Classify(Lower(prompt)) == EmailTopic <==>
      Occurs("email", Lower(prompt)) && forall q: Rule | Rank(q) < 5 :: !OccursAny(Keywords(q), Lower(prompt))
    ensures Classify(Lower(prompt)) == EmailTopic ==>
      var intent := ExtractEmailIntent(prompt);
      LocalReply(prompt, clock) ==
        if !intent.isEmailRequest then EmailOfferReply
        else if |intent.emails| == 0 then AskRecipientReply
        else RecipientsPrefix + Join(intent.emails, ", ") + RecipientsSuffix
  {
    ClassifyIff(Lower(prompt), EmailTopic);
    assert Keywords(EmailTopic) == ["email"];
    if Occurs("email", Lower(prompt)) {
      assert Occurs(Keywords(EmailTopic)[0], Lower(prompt));
    }
  }

  /** When the reply lists addresses, every address found in the prompt is in it. */
  lemma RecipientsListed(prompt: string, clock: string, q: nat)
    requires Classify(Lower(prompt)) == EmailTopic
    requires ExtractEmailIntent(prompt).isEmailRequest
    requires q < |ExtractEmailIntent(prompt).emails|
    ensures Occurs(ExtractEmailIntent(prompt).emails[q], LocalReply(prompt, clock))
  {
    var emails := ExtractEmailIntent(prompt).emails;
    JoinContainsEach(emails, ", ", q);
    OccursInSuffix(emails[q], RecipientsPrefix, Join(emails, ", "));
    OccursInPrefix(emails[q], RecipientsPrefix + Join(emails, ", "), RecipientsSuffix);
  }

  /** The default reply quotes the prompt exactly as given, not lower-cased. */
  lemma EchoQuotesPrompt(prompt: string, clock: string)
    requires Classify(Lower(prompt)) == Echo
    ensures Occurs(prompt, LocalReply(prompt, clock))
    ensures forall q: Rule | q != Echo :: !OccursAny(Keywords(q), Lower(prompt))
  {
    OccursAt(prompt, EchoPrefix + prompt, |EchoPrefix|);
    OccursInPrefix(prompt, EchoPrefix + prompt, EchoSuffix);
    forall q: Rule | q != Echo ensures !OccursAny(Keywords(q), Lower(prompt)) {
      assert Rank(q) < Rank(Echo);
    }
  }

  /** What the language-model call produced: its text, or nothing (a non-200
      status, a timeout or any other exception). */
  datatype Completion = Completed(content: string) | NoCompletion

  /** `get_ai_response`: the model's text when an API key is set and the call
      answered, otherwise the keyword chain. */
  function AiResponse(apiKey: string, prompt: string, llm: Completion, clock: string): (r: string)
    ensures |apiKey| > 0 && llm.Completed? ==> r == llm.content
    ensures |apiKey| == 0 || llm.NoCompletion? ==> r == LocalReply(prompt, clock) && |r| > 0
  {
    if |apiKey| > 0 && llm.Completed? then llm.content else LocalReply(prompt, clock)
  }
}
