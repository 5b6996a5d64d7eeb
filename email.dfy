/** `send_email` and `generate_template_email` (agent_manager.py:331-517,
    main_code.py:290-355): who receives the mail, its subject and body, and the reply. */
module Email {
  import opened Base
  import opened Text
  import opened Json
  import opened Services
  import opened Address

  /** The regular expressions of agent_manager.py's `send_email` whose semantics is
      not modelled, as the functions they compute: each subject pattern and each
      content phrase gives group 1 of its leftmost match, and each `re.sub` gives the
      text with its matches removed. */
  datatype EmailPatterns = EmailPatterns(
    /** the three explicit subject patterns, in order (agent_manager.py:390-394) */
    subjectPatterns: seq<string -> Option<string>>,
    /** the three content phrases, in order (agent_manager.py:408-412) */
    contentPhrases: seq<string -> Option<string>>,
    /** `re.sub(rf'(?:to|send to|email to)\s+{re.escape(recipient)}', '', text)` */
    dropRecipient: (string, string) -> string,
    /** `re.sub(rf'(?:subject|...)[:|\s]\s*"?{re.escape(subject)}"?', '', text)` */
    dropSubject: (string, string) -> string,
    /** the "send", "write" and "compose" email phrases removed in turn */
    dropSend: string -> string,
    dropWrite: string -> string,
    dropCompose: string -> string,
    /** the request phrase removed by `generate_template_email` */
    cleanTemplate: string -> string)

  /** The answers of Gmail and the Groq call for one mail: `setup` covers reading the
      credentials and building the service, `deliver` is `getProfile` followed by
      `messages().send` of the message (to, subject, body). */
  datatype EmailEnv = EmailEnv(setup: Result<()>, llm: LlmCall, deliver: (string, string, string) -> Result<()>)

  const NoSubject: string := "No Subject"
  const Signature: string := "Best regards,\nMilind Warade"
  const MinBody: nat := 30

  /** The result of the first of `patterns` that matches `q`. */
  function FirstMatch(patterns: seq<string -> Option<string>>, q: string): (r: Option<string>)
    ensures r.None? <==> forall i :: 0 <= i < |patterns| ==> patterns[i](q).None?
    decreases |patterns|
  {
    if patterns == [] then None
    else if patterns[0](q).Some? then patterns[0](q)
    else
      assert forall i :: 1 <= i < |patterns| ==> patterns[i] == patterns[1..][i - 1];
      FirstMatch(patterns[1..], q)
  }

  /** What `FirstMatch` gives is the result of some pattern, and every earlier
      pattern failed. */
  lemma {:induction false} FirstMatchIndex(patterns: seq<string -> Option<string>>, q: string) returns (i: nat)
    requires FirstMatch(patterns, q).Some?
    ensures i < |patterns| && patterns[i](q) == FirstMatch(patterns, q)
    ensures forall j :: 0 <= j < i ==> patterns[j](q).None?
    decreases |patterns|
  {
    if patterns[0](q).Some? {
      i := 0;
    } else {
      var k := FirstMatchIndex(patterns[1..], q);
      i := k + 1;
    }
  }

  /** `if subject.endswith('"'): subject = subject[:-1]` */
  function DropTrailingQuote(s: string): (r: string)
    ensures |s| > 0 && s[|s| - 1] == '"' ==> r == s[..|s| - 1]
    ensures !(|s| > 0 && s[|s| - 1] == '"') ==> r == s
  {
    if |s| > 0 && s[|s| - 1] == '"' then s[..|s| - 1] else s
  }

  /** The subject: the first explicit pattern that matches; if that leaves
      "No Subject", the first content phrase that matches; "No Subject" otherwise. */
  function SubjectOf(rx: EmailPatterns, q: string): string {
    var explicit := match FirstMatch(rx.subjectPatterns, q)
      case Some(g) => DropTrailingQuote(Strip(g))
      case None => NoSubject;
    if explicit != NoSubject then explicit
    else match FirstMatch(rx.contentPhrases, q)
      case Some(g) => Strip(g)
      case None => NoSubject
  }

  /** The subject rules: a query none of the six patterns matches has no subject, and
      a subject other than "No Subject" comes from the first explicit pattern that
      matches or, when none does, from the first content phrase that matches. */
  lemma SubjectCases(rx: EmailPatterns, q: string)
    ensures (forall i :: 0 <= i < |rx.subjectPatterns| ==> rx.subjectPatterns[i](q).None?)
         && (forall i :: 0 <= i < |rx.contentPhrases| ==> rx.contentPhrases[i](q).None?)
         ==> SubjectOf(rx, q) == NoSubject
    ensures SubjectOf(rx, q) != NoSubject ==>
      || (exists i :: 0 <= i < |rx.subjectPatterns| && rx.subjectPatterns[i](q).Some?
            && SubjectOf(rx, q) == DropTrailingQuote(Strip(rx.subjectPatterns[i](q).value)))
      || (exists i :: 0 <= i < |rx.contentPhrases| && rx.contentPhrases[i](q).Some?
            && SubjectOf(rx, q) == Strip(rx.contentPhrases[i](q).value))
  {
    var s := SubjectOf(rx, q);
    if s != NoSubject {
      var first := FirstMatch(rx.subjectPatterns, q);
      if first.Some? && DropTrailingQuote(Strip(first.value)) != NoSubject {
        var i := FirstMatchIndex(rx.subjectPatterns, q);
        assert rx.subjectPatterns[i](q).value == first.value;
      } else {
        var i := FirstMatchIndex(rx.contentPhrases, q);
        assert rx.contentPhrases[i](q).Some?;
      }
    }
  }

  /** The first explicit pattern that matches decides the subject whenever it leaves
      something other than "No Subject": later patterns and the content phrases are
      not consulted. */
  lemma SubjectFromPattern(rx: EmailPatterns, q: string, i: nat)
    requires i < |rx.subjectPatterns| && rx.subjectPatterns[i](q).Some?
    requires forall j :: 0 <= j < i ==> rx.subjectPatterns[j](q).None?
    ensures var g := DropTrailingQuote(Strip(rx.subjectPatterns[i](q).value));
      g != NoSubject ==> SubjectOf(rx, q) == g
  {
    FirstMatchAt(rx.subjectPatterns, q, i);
  }

  /** When no explicit pattern matches, the first content phrase that matches gives
      the subject, stripped. */
  lemma SubjectFromPhrase(rx: EmailPatterns, q: string, i: nat)
    requires forall j :: 0 <= j < |rx.subjectPatterns| ==> rx.subjectPatterns[j](q).None?
    requires i < |rx.contentPhrases| && rx.contentPhrases[i](q).Some?
    requires forall j :: 0 <= j < i ==> rx.contentPhrases[j](q).None?
    ensures SubjectOf(rx, q) == Strip(rx.contentPhrases[i](q).value)
  {
    FirstMatchAt(rx.contentPhrases, q, i);
  }

  /** `content_info`: the query without the recipient phrase, the subject phrase
      (when there is a subject) and the request phrases, stripped. */
  function ContentInfo(rx: EmailPatterns, q: string, recipient: string, subject: string): string {
    var withoutRecipient := rx.dropRecipient(q, recipient);
    var withoutSubject := if subject != NoSubject then rx.dropSubject(withoutRecipient, subject) else withoutRecipient;
    Strip(rx.dropCompose(rx.dropWrite(rx.dropSend(withoutSubject))))
  }

  /** `content_info` is stripped: stripping it again changes nothing. */
  lemma ContentInfoStripped(rx: EmailPatterns, q: string, recipient: string, subject: string)
    ensures Strip(ContentInfo(rx, q, recipient, subject)) == ContentInfo(rx, q, recipient, subject)
  {
    var withoutRecipient := rx.dropRecipient(q, recipient);
    var withoutSubject := if subject != NoSubject then rx.dropSubject(withoutRecipient, subject) else withoutRecipient;
    StripIdempotent(rx.dropCompose(rx.dropWrite(rx.dropSend(withoutSubject))));
  }

  /** The subject phrase is removed only when a subject was found: with "No Subject"
      the subject pattern plays no part, and otherwise its removal is what separates
      the result from the one without it. */
  lemma ContentInfoSubject(rx: EmailPatterns, rx': EmailPatterns, q: string, recipient: string, subject: string)
    requires rx' == rx.(dropSubject := rx'.dropSubject)
    ensures subject == NoSubject ==> ContentInfo(rx, q, recipient, subject) == ContentInfo(rx', q, recipient, subject)
    ensures subject != NoSubject && rx.dropSubject(rx.dropRecipient(q, recipient), subject) == rx.dropRecipient(q, recipient)
      ==> ContentInfo(rx, q, recipient, subject) == ContentInfo(rx, q, recipient, NoSubject)
  {
  }

  /** The template's closing request, written in short pieces so that its
      characters are checked piece by piece. */
  const Request: string := "Please let me know " + "if you need any " + "further information."

  /** The lines of the template mail about `topic`. */
  function TemplateLines(topic: string): (r: seq<string>)
    ensures |r| == 8 && r[2] == "I'm reaching out regarding " + topic + "." && r[6] + "\n" + r[7] == Signature
  {
    ["Hello,", "", "I'm reaching out regarding " + topic + ".", "",
     Request, "", "Best regards,", "Milind Warade"]
  }

  /** `generate_template_email(recipient, subject, content_info)`; only the content
      is used. */
  function TemplateEmail(rx: EmailPatterns, contentInfo: string): string {
    Join(TemplateLines(Strip(rx.cleanTemplate(contentInfo))), "\n")
  }

  /** The template ends with the signature, and when the topic holds no line break it
      splits back into exactly its eight lines. */
  lemma TemplateShape(rx: EmailPatterns, contentInfo: string)
    ensures EndsWith(TemplateEmail(rx, contentInfo), Signature)
    ensures var topic := Strip(rx.cleanTemplate(contentInfo));
      '\n' !in topic ==> Split(TemplateEmail(rx, contentInfo), '\n') == TemplateLines(topic)
  {
    var topic := Strip(rx.cleanTemplate(contentInfo));
    var lines := TemplateLines(topic);
    JoinEndsWith(lines, "\n");
    if '\n' !in topic {
      var opening := "I'm reaching out regarding ";
      assert '\n' !in opening;
      assert lines[2] == opening + topic + ".";
      assert '\n' !in Request;
      assert '\n' !in lines[0] && '\n' !in lines[1] && '\n' !in lines[3] && '\n' !in lines[4];
      assert '\n' !in lines[5] && '\n' !in lines[6] && '\n' !in lines[7];
      SplitJoin(lines, '\n');
    }
  }

  /** The body the mail carries: the model's reply, stripped, when there is one of at
      least 30 characters; the template otherwise. */
  function EmailBody(llm: LlmCall, template: string): (r: string)
    ensures llm.Replied? && |Strip(llm.content)| >= MinBody ==> r == Strip(llm.content)
    ensures r != template ==> llm.Replied? && r == Strip(llm.content) && |r| >= MinBody
    ensures llm.NoClient? || llm.Raised? || (llm.Replied? && |Strip(llm.content)| < MinBody) ==> r == template
  {
    match llm
    case Replied(content) => if |Strip(content)| < MinBody then template else Strip(content)
    case _ => template
  }

  /** main_code.py:332-333: the first line of the reply without "SUBJECT:", and the
      remaining lines, each stripped. */
  function SplitSubjectBody(content: string): (string, string) {
    var lines := Split(content, '\n');
    (Strip(RemoveAll(lines[0], "SUBJECT:")), Strip(Join(lines[1..], "\n")))
  }

  /** A reply in the requested format, "SUBJECT:" and a subject line, then the body,
      gives that subject and that body back, stripped. */
  lemma SubjectBodyRoundTrip(subject: string, body: string)
    requires '\n' !in subject && !Contains(subject, "SUBJECT:")
    ensures SplitSubjectBody("SUBJECT:" + subject + "\n" + body) == (Strip(subject), Strip(body))
  {
    var first := "SUBJECT:" + subject;
    assert '\n' !in first by {
      assert forall c :: c in first ==> c in "SUBJECT:" || c in subject;
    }
    SplitAfterFirst(first, '\n', body);
    var lines := Split(first + "\n" + body, '\n');
    assert lines[0] == first && lines[1..] == Split(body, '\n');
    JoinSplit(body, '\n');
    assert first[..8] == "SUBJECT:" && first[8..] == subject;
  }

  /** A reply of one line is all subject: the body is empty. */
  lemma OneLineReply(content: string)
    requires '\n' !in content
    ensures SplitSubjectBody(content) == (Strip(RemoveAll(content, "SUBJECT:")), "")
  {
    SplitWithoutSeparator(content, '\n');
    var lines := Split(content, '\n');
    assert lines[1..] == [];
    assert Join(lines[1..], "\n") == "";
  }

  function SendFailed(message: string): string {
    "\U{274C} Failed to send email: " + message
  }

  function SendingFailed(message: string): string {
    "\U{274C} Email sending failed: " + message
  }

  function CouldNotFind(name: string): string {
    "\U{274C} Could not find a valid email address for '" + name + "'. Please include a complete email address."
  }

  const NoAddress: string := "\U{274C} No email address found in the query! Please include a valid email address."
  const NoAddressShort: string := "\U{274C} No email address found in the query!"

  /** The reply after a successful send. */
  function Sent(recipient: string, subject: string, body: string): string {
    "\U{2705} Email sent successfully!\nTo: " + recipient + "\nSubject: " + subject + "\nMessage:\n" + body
  }

  /** The mail agent_manager.py sends to `recipient`: subject and body. */
  function Compose(rx: EmailPatterns, llm: LlmCall, q: string, recipient: string): (string, string) {
    var subject := SubjectOf(rx, q);
    var contentInfo := ContentInfo(rx, q, recipient, subject);
    (subject, EmailBody(llm, TemplateEmail(rx, contentInfo)))
  }

  /** The reply of `send_email(query)`. */
  function EmailReply(variant: Variant, rx: EmailPatterns, env: EmailEnv, q: string): string {
    match env.setup
    case Err(m) => SendFailed(m)
    case Ok(_) =>
      match FirstAddress(q)
      case None =>
        if variant == MainCodeFile then NoAddressShort
        else if ToClause(q).Some? then CouldNotFind(ToClause(q).value)
        else NoAddress
      case Some(recipient) => AddressedReply(variant, rx, env, q, recipient)
  }

  /** The reply once the recipient is known. */
  function AddressedReply(variant: Variant, rx: EmailPatterns, env: EmailEnv, q: string, recipient: string): string {
    if variant == AgentManagerFile then
      var mail := Compose(rx, env.llm, q, recipient);
      Deliver(env, recipient, mail.0, mail.1)
    else
      match env.llm
      case NoClient => GroqMissing
      case Raised(m) => SendFailed(m)
      case Replied(content) =>
        var mail := SplitSubjectBody(Strip(content));
        Deliver(env, recipient, mail.0, mail.1)
  }

  /** Sending the mail, and the reply that reports it. */
  function Deliver(env: EmailEnv, recipient: string, subject: string, body: string): string {
    match env.deliver(recipient, subject, body)
    case Ok(_) => Sent(recipient, subject, body)
    case Err(m) => SendingFailed(m)
  }

  lemma DeliverVisible(env: EmailEnv, recipient: string, subject: string, body: string)
    ensures HasVisible(Deliver(env, recipient, subject, body))
  {
    match env.deliver(recipient, subject, body)
    case Ok(_) => VisibleFirst(Sent(recipient, subject, body));
    case Err(m) => VisibleFirst(SendingFailed(m));
  }

  lemma ComposedVisible(rx: EmailPatterns, env: EmailEnv, q: string, recipient: string)
    ensures HasVisible(AddressedReply(AgentManagerFile, rx, env, q, recipient))
  {
    var mail := Compose(rx, env.llm, q, recipient);
    assert AddressedReply(AgentManagerFile, rx, env, q, recipient) == Deliver(env, recipient, mail.0, mail.1);
    DeliverVisible(env, recipient, mail.0, mail.1);
  }

  lemma SplitReplyVisible(rx: EmailPatterns, env: EmailEnv, q: string, recipient: string)
    ensures HasVisible(AddressedReply(MainCodeFile, rx, env, q, recipient))
  {
    match env.llm
    case NoClient => VisibleLast(GroqMissing);
    case Raised(m) => VisibleFirst(SendFailed(m));
    case Replied(content) =>
      forall subject, body ensures HasVisible(Deliver(env, recipient, subject, body)) {
        DeliverVisible(env, recipient, subject, body);
      }
  }

  lemma MissingAddressVisible(name: string)
    ensures HasVisible(NoAddress) && HasVisible(NoAddressShort) && HasVisible(CouldNotFind(name))
  {
    VisibleLast(NoAddress);
    VisibleLast(NoAddressShort);
    VisibleLast(CouldNotFind(name));
  }

  /** Every reply of `send_email` holds visible text: each starts with a cross
      or a check mark. */
  lemma EmailReplyVisible(variant: Variant, rx: EmailPatterns, env: EmailEnv, q: string)
    ensures HasVisible(EmailReply(variant, rx, env, q))
  {
    match env.setup
    case Err(m) => VisibleFirst(SendFailed(m));
    case Ok(_) =>
      match FirstAddress(q)
      case None =>
        MissingAddressVisible(if ToClause(q).Some? then ToClause(q).value else "");
      case Some(recipient) =>
        if variant == AgentManagerFile {
          ComposedVisible(rx, env, q, recipient);
        } else {
          SplitReplyVisible(rx, env, q, recipient);
        }
  }

  /** The recipient is the leftmost address in the query: once set up, a query
      holding an address takes the addressed branch, so it never gets a
      missing-address reply, and in agent_manager.py the composed mail is sent to
      that address. */
  lemma AddressedQuery(variant: Variant, rx: EmailPatterns, env: EmailEnv, q: string)
    requires env.setup.Ok? && HasAddress(q)
    ensures FirstAddress(q).Some?
    ensures EmailReply(variant, rx, env, q) == AddressedReply(variant, rx, env, q, FirstAddress(q).value)
    ensures variant == AgentManagerFile ==>
      var mail := Compose(rx, env.llm, q, FirstAddress(q).value);
      EmailReply(variant, rx, env, q) == Deliver(env, FirstAddress(q).value, mail.0, mail.1)
  {
    FirstAddressIff(q);
  }

  /** Without an address in the query the reply says so: main_code.py briefly,
      agent_manager.py naming the recipient of a "to <name>" phrase when there is one. */
  lemma UnaddressedQuery(variant: Variant, rx: EmailPatterns, env: EmailEnv, q: string)
    requires env.setup.Ok? && !HasAddress(q)
    ensures EmailReply(variant, rx, env, q) ==
      if variant == MainCodeFile then NoAddressShort
      else if ToClause(q).Some? then CouldNotFind(ToClause(q).value)
      else NoAddress
  {
    FirstAddressIff(q);
  }

  /** The pattern at `i` matches and none before it does: its result is the first match. */
  lemma {:induction false} FirstMatchAt(patterns: seq<string -> Option<string>>, q: string, i: nat)
    requires i < |patterns| && patterns[i](q).Some?
    requires forall j :: 0 <= j < i ==> patterns[j](q).None?
    ensures FirstMatch(patterns, q) == patterns[i](q)
    decreases i
  {
    if i > 0 {
      FirstMatchAt(patterns[1..], q, i - 1);
    }
  }

  /** agent_manager.py:385-418: the subject, found by the two loops over the patterns. */
  method ChooseSubject(rx: EmailPatterns, q: string) returns (subject: string)
    ensures subject == SubjectOf(rx, q)
  {
    subject := NoSubject;
    var i := 0;
    while i < |rx.subjectPatterns|
      invariant 0 <= i <= |rx.subjectPatterns|
      invariant forall j :: 0 <= j < i ==> rx.subjectPatterns[j](q).None?
    {
      var found := rx.subjectPatterns[i](q);
      if found.Some? {
        FirstMatchAt(rx.subjectPatterns, q, i);
        subject := Strip(found.value);
        if |subject| > 0 && subject[|subject| - 1] == '"' {
          subject := subject[..|subject| - 1];
        }
        break;
      }
      i := i + 1;
    }
    if subject == NoSubject {
      var k := 0;
      while k < |rx.contentPhrases|
        invariant 0 <= k <= |rx.contentPhrases|
        invariant forall j :: 0 <= j < k ==> rx.contentPhrases[j](q).None?
      {
        var found := rx.contentPhrases[k](q);
        if found.Some? {
          FirstMatchAt(rx.contentPhrases, q, k);
          subject := Strip(found.value);
          break;
        }
        k := k + 1;
      }
    }
  }

  /** agent_manager.py:420-434: `content_info`, rewritten in sequence. */
  method CleanContent(rx: EmailPatterns, q: string, recipient: string, subject: string) returns (contentInfo: string)
    ensures contentInfo == ContentInfo(rx, q, recipient, subject)
    ensures Strip(contentInfo) == contentInfo
  {
    contentInfo := q;
    contentInfo := rx.dropRecipient(contentInfo, recipient);
    if subject != NoSubject {
      contentInfo := rx.dropSubject(contentInfo, subject);
    }
    contentInfo := rx.dropSend(contentInfo);
    contentInfo := rx.dropWrite(contentInfo);
    contentInfo := rx.dropCompose(contentInfo);
    StripIdempotent(contentInfo);
    contentInfo := Strip(contentInfo);
  }

  /** agent_manager.py:439-482: the body, the template unless the model's reply is
      long enough. */
  method ChooseBody(rx: EmailPatterns, llm: LlmCall, contentInfo: string) returns (body: string)
    ensures body == EmailBody(llm, TemplateEmail(rx, contentInfo))
  {
    if llm.Replied? {
      body := Strip(llm.content);
      if |body| < MinBody {
        body := TemplateEmail(rx, contentInfo);
      }
    } else {
      body := TemplateEmail(rx, contentInfo);
    }
  }

  /** `send_email(query)`, step by step as the source runs it. */
  method SendEmail(variant: Variant, rx: EmailPatterns, env: EmailEnv, q: string) returns (reply: string)
    ensures reply == EmailReply(variant, rx, env, q)
  {
    if env.setup.Err? {
      return SendFailed(env.setup.error);
    }
    var address := FirstAddress(q);
    if address.None? {
      if variant == MainCodeFile {
        return NoAddressShort;
      }
      var name := ToClause(q);
      if name.Some? {
        return CouldNotFind(name.value);
      }
      return NoAddress;
    }
    var recipient := address.value;
    var subject: string;
    var body: string;
    if variant == AgentManagerFile {
      subject := ChooseSubject(rx, q);
      var contentInfo := CleanContent(rx, q, recipient, subject);
      body := ChooseBody(rx, env.llm, contentInfo);
    } else {
      if env.llm.NoClient? {
        return GroqMissing;
      }
      if env.llm.Raised? {
        return SendFailed(env.llm.message);
      }
      var content := Strip(env.llm.content);
      var lines := Split(content, '\n');
      subject := Strip(RemoveAll(lines[0], "SUBJECT:"));
      body := Strip(Join(lines[1..], "\n"));
    }
    var sent := env.deliver(recipient, subject, body);
    if sent.Err? {
      return SendingFailed(sent.error);
    }
    reply := Sent(recipient, subject, body);
  }
}
