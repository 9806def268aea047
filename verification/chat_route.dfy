/**
 * The chat endpoint: a rule-based responder. The message is lower-cased and
 * matched against an ordered list of keyword rules; the first rule with a
 * keyword contained in the text decides the reply, and a fixed reply covers
 * everything else.
 */
module ChatRoute {
  import opened Wrappers
  import opened Text

  /** A rule fires when the lower-cased text contains any of its keywords. */
  datatype Rule = Rule(keywords: seq<string>, reply: string)

  datatype Response = BadRequest(error: string) | Replied(reply: string)

  const MessageRequired := "Message is required"

  const GreetingReply := "Hello! I'm DeGi Assistant. I can help analyze your skills and find opportunities. Have you submitted your profiles yet?"
  const GitHubReply := "GitHub repositories are a great way to showcase your coding skills. I can analyze your repositories to identify your tech stack and expertise level."
  const TwitterReply := "Twitter/X can reveal your interests and networking in the tech community. I'll look for tech keywords and mentions in your tweets."
  const LinkedInReply := "LinkedIn profiles contain valuable information about your professional experience and skills. Make sure your profile is public or you've provided the correct URL."
  const JobReply := "I can help find job opportunities that match your skill set. Once I analyze your profiles, I'll recommend relevant positions."
  const SkillReply := "Skill analysis involves examining your GitHub repositories, Twitter activity, and LinkedIn profile to identify your technical expertise and experience level."
  const FallbackReply := "I'm still learning how to respond to that. Try asking about GitHub, Twitter, LinkedIn, skill analysis, or job opportunities."

  /** The rules in the order the handler tries them. */
  const Rules: seq<Rule> := [
    Rule(["hello", "hi"], GreetingReply),
    Rule(["github"], GitHubReply),
    Rule(["twitter", "x"], TwitterReply),
    Rule(["linkedin"], LinkedInReply),
    Rule(["job", "opportunity"], JobReply),
    Rule(["skill", "analysis"], SkillReply)
  ]

  /** Every reply the handler can give. */
  const Replies: seq<string> := [GreetingReply, GitHubReply, TwitterReply, LinkedInReply, JobReply, SkillReply, FallbackReply]

  predicate Fires(rule: Rule, text: string)
  {
    exists k :: k in rule.keywords && Includes(text, k)
  }

  /** The position of the first rule of `rules` that fires on `text`, if any does. */
  function FirstFiring(rules: seq<Rule>, text: string): (r: Option<nat>)
    ensures r.Some? ==> r.value < |rules| && Fires(rules[r.value], text)
    ensures r.Some? ==> forall j :: 0 <= j < r.value ==> !Fires(rules[j], text)
    ensures r.None? ==> forall j :: 0 <= j < |rules| ==> !Fires(rules[j], text)
  {
    if rules == [] then None
    else if Fires(rules[0], text) then Some(0)
    else
      match FirstFiring(rules[1..], text)
      case None => None
      case Some(i) => Some(i + 1)
  }

  /**
   * The reply chosen for a message: the first firing rule's, or the
   * fallback, which is given exactly when no rule fires.
   */
  function Reply(message: string): (r: string)
    ensures r in Replies
    ensures r == FallbackReply <==> forall j :: 0 <= j < |Rules| ==> !Fires(Rules[j], ToLower(message))
  {
    RepliesDistinct();
    match FirstFiring(Rules, ToLower(message))
    case Some(i) => Rules[i].reply
    case None => FallbackReply
  }

  /** The handler, from the parsed `message` (absent or null: `None`). */
  function Post(message: Option<string>): (r: Response)
    ensures r.BadRequest? <==> message.None? || message.value == ""
    ensures r.BadRequest? ==> r.error == MessageRequired
    ensures r.Replied? ==> r.reply in Replies
  {
    if message.None? || message.value == "" then BadRequest(MessageRequired)
    else Replied(Reply(message.value))
  }

  /** First match wins: rule `i` decides the reply when it fires and no earlier rule does. */
  lemma FirstMatchWins(message: string, i: nat)
    requires message != "" && i < |Rules|
    requires Fires(Rules[i], ToLower(message))
    requires forall j :: 0 <= j < i ==> !Fires(Rules[j], ToLower(message))
    ensures Post(Some(message)) == Replied(Rules[i].reply)
  {
    var f := FirstFiring(Rules, ToLower(message));
    assert f.Some?;
    assert !(f.value < i) && !(i < f.value);
  }

  /** The reply depends only on the message up to letter case. */
  lemma ReplyCaseInsensitive(a: string, b: string)
    requires EqualIgnoringCase(a, b)
    ensures Post(Some(a)) == Post(Some(b))
  {
    ToLowerEqualIff(a, b);
  }

  /** Any message containing "hello" or "hi" gets the greeting, whatever else it mentions. */
  lemma GreetingWins(message: string)
    requires Includes(ToLower(message), "hello") || Includes(ToLower(message), "hi")
    ensures Post(Some(message)) == Replied(GreetingReply)
  {
    if Includes(ToLower(message), "hello") {
      IncludesLength(ToLower(message), "hello");
      assert "hello" in Rules[0].keywords;
    } else {
      IncludesLength(ToLower(message), "hi");
      assert "hi" in Rules[0].keywords;
    }
    FirstMatchWins(message, 0);
  }

  /** Without "hello", "hi" or "github", a message containing "twitter" or any "x" gets the Twitter reply. */
  lemma AnyXIsTwitter(message: string)
    requires var t := ToLower(message); !Includes(t, "hello") && !Includes(t, "hi") && !Includes(t, "github")
    requires Includes(ToLower(message), "twitter") || Includes(ToLower(message), "x")
    ensures Post(Some(message)) == Replied(TwitterReply)
  {
    var t := ToLower(message);
    if Includes(t, "twitter") {
      IncludesLength(t, "twitter");
      assert "twitter" in Rules[2].keywords;
    } else {
      IncludesLength(t, "x");
      assert "x" in Rules[2].keywords;
    }
    assert !Fires(Rules[0], t) && !Fires(Rules[1], t);
    FirstMatchWins(message, 2);
  }

  /** A non-empty message containing none of the keywords gets the fallback reply. */
  lemma NoKeywordFallback(message: string)
    requires message != ""
    requires forall r, k :: r in Rules && k in r.keywords ==> !Includes(ToLower(message), k)
    ensures Post(Some(message)) == Replied(FallbackReply)
  {
    var t := ToLower(message);
    forall j | 0 <= j < |Rules|
      ensures !Fires(Rules[j], t)
    {
      assert Rules[j] in Rules;
    }
  }

  /** The seven replies are pairwise different, so the reply tells which rule decided. */
  lemma RepliesDistinct()
    ensures forall i, j :: 0 <= i < j < |Replies| ==> Replies[i] != Replies[j]
  {
  }

  /** "this" and "which" contain "hi", so both are greetings. */
  lemma HiInsideWords()
    ensures Post(Some("this")) == Replied(GreetingReply)
    ensures Post(Some("Which")) == Replied(GreetingReply)
  {
    assert ToLower("this") == "this";
    assert ToLower("Which") == "which";
    assert OccursAt("this", "hi", 1);
    assert OccursAt("which", "hi", 1);
    IncludesIff("this", "hi");
    IncludesIff("which", "hi");
    GreetingWins("this");
    GreetingWins("Which");
  }

  /** "github job" contains "github" but neither "hello" nor "hi". */
  lemma GitHubJobKeywords(t: string)
    requires t == "github job"
    ensures !Includes(t, "hello") && !Includes(t, "hi") && Includes(t, "github")
  {
    NotIncludedMissingChar(t, "hello", 'e');
    forall i | 0 <= i <= |t| - 2
      ensures !OccursAt(t, "hi", i)
    {
      assert t[i..i + 2] == [t[i], t[i + 1]];
    }
    IncludesIff(t, "hi");
    assert OccursAt(t, "github", 0);
    IncludesIff(t, "github");
  }

  /** A message about both GitHub and jobs gets the GitHub reply: that rule is listed first. */
  lemma GitHubBeforeJob(message: string)
    requires message == "GitHub job"
    ensures Post(Some(message)) == Replied(GitHubReply)
  {
    var t := ToLower(message);
    assert t == "github job";
    GitHubJobKeywords(t);
    assert !Fires(Rules[0], t);
    assert "github" in Rules[1].keywords;
    FirstMatchWins(message, 1);
  }

  /** "next steps" contains "x" but none of "hello", "hi" and "github". */
  lemma NextStepsKeywords(t: string)
    requires t == "next steps"
    ensures !Includes(t, "hello") && !Includes(t, "hi") && !Includes(t, "github")
    ensures Includes(t, "x")
  {
    NotIncludedMissingChar(t, "hello", 'l');
    NotIncludedMissingChar(t, "hi", 'i');
    NotIncludedMissingChar(t, "github", 'g');
    assert OccursAt(t, "x", 2);
    IncludesIff(t, "x");
  }

  /** "Next steps" says nothing about Twitter, but its "x" selects the Twitter reply. */
  lemma NextStepsIsTwitter(message: string)
    requires message == "Next steps"
    ensures Post(Some(message)) == Replied(TwitterReply)
  {
    var t := ToLower(message);
    assert t == "next steps";
    NextStepsKeywords(t);
    AnyXIsTwitter(message);
  }

  /** A message of spaces only is not refused: it gets the fallback reply. */
  lemma SpacesGetFallback(message: string)
    requires message == "   "
    ensures Post(Some(message)) == Replied(FallbackReply)
  {
    var t := ToLower(message);
    assert t == message;
    forall r, k | r in Rules && k in r.keywords
      ensures !Includes(t, k)
    {
      assert k != "" && k[0] != ' ';
      NotIncludedMissingChar(t, k, k[0]);
    }
    NoKeywordFallback(message);
  }
}
