/**
 * The opportunities endpoint: validate the user's skills, pick the fixed
 * list of opportunities for the requested level, and keep the entries that
 * share a skill with the user or accept anyone.
 */
module Opportunities {
  import opened Wrappers
  import opened Text
  import opened Seqs

  datatype Kind = Course | Hackathon | Job | Bounty

  /** Who offers the opportunity; the field name differs by kind. */
  datatype Provider = Platform(name: string) | Organizer(name: string) | Company(name: string)

  datatype Opportunity = Opportunity(kind: Kind, title: string, provider: Provider, link: string, skills: seq<string>)

  /** The level a request asks for; `Unrecognised` covers an absent level and any other text. */
  datatype Level = Beginner | Intermediate | Advanced | Unrecognised

  /** The body of the reply: the 400 error or the kept opportunities with their count. */
  datatype Response = BadRequest(error: string) | Found(opportunities: seq<Opportunity>, count: nat)

  const SkillsRequired := "Skills array is required"

  /** The skill that matches every user. */
  const AnySkill := "Any"

  const WebDevFundamentals := Opportunity(Course, "Web Development Fundamentals", Platform("Udemy"), "https://udemy.com", ["HTML", "CSS", "JavaScript"])
  const GitForBeginners := Opportunity(Course, "Git & GitHub for Beginners", Platform("Coursera"), "https://coursera.org", ["Git"])
  const BeginnerHackathon := Opportunity(Hackathon, "Beginner Friendly Hackathon", Organizer("MLH"), "https://mlh.io", [AnySkill])

  const FrontendDeveloper := Opportunity(Job, "Frontend Developer", Company("TechCorp"), "#", ["JavaScript", "React", "CSS"])
  const FixUiBug := Opportunity(Bounty, "Fix UI Bug in Open Source Project", Platform("Gitcoin"), "https://gitcoin.co", ["JavaScript", "React"])
  const Web3Hackathon := Opportunity(Hackathon, "Web3 Hackathon", Organizer("ETHGlobal"), "https://ethglobal.com", ["JavaScript", "Solidity"])

  const SeniorFullStack := Opportunity(Job, "Senior Full-Stack Developer", Company("BigTech Inc"), "#", ["TypeScript", "Node.js", "React"])
  const LeadFrontend := Opportunity(Job, "Lead Frontend Engineer", Company("Startup XYZ"), "#", ["JavaScript", "React", "Redux", "GraphQL"])
  const FrameworkFeature := Opportunity(Bounty, "Implement New Feature in Popular Framework", Platform("Open Collective"), "https://opencollective.com", ["TypeScript", "Testing"])

  const WebDeveloper := Opportunity(Job, "Web Developer", Company("GenericCompany"), "#", ["JavaScript", "HTML", "CSS"])
  const ModernJavaScript := Opportunity(Course, "Modern JavaScript", Platform("Frontend Masters"), "https://frontendmasters.com", ["JavaScript"])

  /** The fixed list each level is served from. */
  function Bucket(level: Level): seq<Opportunity>
  {
    match level
    case Beginner => [WebDevFundamentals, GitForBeginners, BeginnerHackathon]
    case Intermediate => [FrontendDeveloper, FixUiBug, Web3Hackathon]
    case Advanced => [SeniorFullStack, LeadFrontend, FrameworkFeature]
    case Unrecognised => [WebDeveloper, ModernJavaScript]
  }

  /** `level?.toLowerCase()` compared against the three level names. */
  function ParseLevel(level: Option<string>): Level
  {
    if level.None? then Unrecognised
    else
      var l := ToLower(level.value);
      if l == "beginner" then Beginner
      else if l == "intermediate" then Intermediate
      else if l == "advanced" then Advanced
      else Unrecognised
  }

  /**
   * The filter callback: some skill of `opp` is one of the user's skills
   * (exact, case-sensitive), or `opp` lists the skill "Any". The second test
   * sits inside the `some`, so an opportunity with no skills is never kept.
   */
  predicate Kept(user: seq<string>, opp: Opportunity)
  {
    exists i :: 0 <= i < |opp.skills| && (opp.skills[i] in user || AnySkill in opp.skills)
  }

  /** The handler, from the parsed `skills` (absent, null or not an array: `None`) and `level`. */
  function Post(skills: Option<seq<string>>, level: Option<string>): (r: Response)
    ensures r.BadRequest? <==> skills.None? || |skills.value| == 0
    ensures r.BadRequest? ==> r.error == SkillsRequired
    ensures r.Found? ==> r.count == |r.opportunities|
    ensures r.Found? ==> forall o :: o in r.opportunities ==> o in Bucket(ParseLevel(level)) && Kept(skills.value, o)
    ensures r.Found? ==> forall o :: o in Bucket(ParseLevel(level)) && Kept(skills.value, o) ==> o in r.opportunities
  {
    if skills.None? || |skills.value| == 0 then BadRequest(SkillsRequired)
    else
      var kept := Filter(o => Kept(skills.value, o), Bucket(ParseLevel(level)));
      Found(kept, |kept|)
  }

  /** An opportunity is kept exactly when it shares a skill with the user or lists "Any". */
  lemma KeptIff(user: seq<string>, opp: Opportunity)
    ensures Kept(user, opp) <==> (exists s :: s in opp.skills && s in user) || AnySkill in opp.skills
  {
    if AnySkill in opp.skills {
      var i :| 0 <= i < |opp.skills| && opp.skills[i] == AnySkill;
      assert opp.skills[i] in user || AnySkill in opp.skills;
    }
  }

  /**
   * The reply lists the kept entries of the selected bucket in their bucket
   * order: it is the bucket read at exactly the positions of kept entries.
   */
  lemma PostPreservesOrder(skills: seq<string>, level: Option<string>)
    requires |skills| > 0
    ensures var b := Bucket(ParseLevel(level));
            var idx := KeptIndices(o => Kept(skills, o), b);
            && Selects(idx, b, Post(Some(skills), level).opportunities)
            && forall i :: 0 <= i < |b| ==> (i in idx <==> Kept(skills, b[i]))
  {
    var b := Bucket(ParseLevel(level));
    FilterSelectsKept(o => Kept(skills, o), b);
    KeptIndicesExact(o => Kept(skills, o), b);
  }

  /**
   * Each of the three level names selects its list whatever its letter case,
   * and nothing else does: an absent level, or any other text, is
   * `Unrecognised`.
   */
  lemma ParseLevelNames(level: Option<string>)
    ensures level.None? ==> ParseLevel(level) == Unrecognised
    ensures ParseLevel(level) == Beginner <==> level.Some? && EqualIgnoringCase(level.value, "beginner")
    ensures ParseLevel(level) == Intermediate <==> level.Some? && EqualIgnoringCase(level.value, "intermediate")
    ensures ParseLevel(level) == Advanced <==> level.Some? && EqualIgnoringCase(level.value, "advanced")
  {
    if level.Some? {
      LowerNameIff(level.value, "beginner");
      LowerNameIff(level.value, "intermediate");
      LowerNameIff(level.value, "advanced");
    }
  }

  /** Against a name without upper-case letters, comparing lower-cased text is comparing up to case. */
  lemma LowerNameIff(v: string, name: string)
    requires forall i :: 0 <= i < |name| ==> !IsUpper(name[i])
    ensures ToLower(v) == name <==> EqualIgnoringCase(v, name)
  {
    ToLowerNoUpper(name);
    ToLowerEqualIff(v, name);
  }

  /**
   * No entry of any list is dead: a user who lists an entry's skills, at a
   * level that selects its list, gets that entry back.
   */
  lemma EveryEntryReachable(level: Option<string>, o: Opportunity)
    requires o in Bucket(ParseLevel(level))
    ensures o in Post(Some(o.skills), level).opportunities
  {
    assert |o.skills| > 0;
    assert o.skills[0] in o.skills;
  }

  /** Level names are matched regardless of letter case. */
  lemma LevelCaseInsensitive(skills: Option<seq<string>>, a: string, b: string)
    requires EqualIgnoringCase(a, b)
    ensures ParseLevel(Some(a)) == ParseLevel(Some(b))
    ensures Post(skills, Some(a)) == Post(skills, Some(b))
  {
    ToLowerEqualIff(a, b);
  }

  /** "Beginner", "BEGINNER" and "beginner" all select the beginner list. */
  lemma BeginnerSpellings()
    ensures ParseLevel(Some("Beginner")) == Beginner
    ensures ParseLevel(Some("BEGINNER")) == Beginner
    ensures ParseLevel(Some("beginner")) == Beginner
  {
    assert ToLower("Beginner") == "beginner";
    assert ToLower("BEGINNER") == "beginner";
    assert ToLower("beginner") == "beginner";
  }

  /**
   * An absent or unrecognised level gets the two-entry default list, which
   * is not the intermediate list.
   */
  lemma DefaultBucketIsNotIntermediate(level: Option<string>)
    requires level.None? || ToLower(level.value) !in ["beginner", "intermediate", "advanced"]
    ensures Bucket(ParseLevel(level)) == [WebDeveloper, ModernJavaScript]
    ensures Bucket(ParseLevel(level)) != Bucket(Intermediate)
  {
  }

  /** No opportunity belongs to two levels' lists. */
  lemma BucketsDisjoint(l1: Level, l2: Level, o: Opportunity)
    requires l1 != l2 && o in Bucket(l1)
    ensures o !in Bucket(l2)
  {
  }

  /** Only the selected list is filtered: no entry of another level's list is returned. */
  lemma OnlySelectedBucket(skills: seq<string>, level: Option<string>, other: Level, o: Opportunity)
    requires |skills| > 0 && other != ParseLevel(level)
    requires o in Post(Some(skills), level).opportunities
    ensures o !in Bucket(other)
  {
    BucketsDisjoint(ParseLevel(level), other, o);
  }

  /** At beginner level, the hackathon that accepts anyone is returned for every non-empty skill list. */
  lemma BeginnerAlwaysGetsHackathon(skills: seq<string>, level: string)
    requires |skills| > 0 && ParseLevel(Some(level)) == Beginner
    ensures BeginnerHackathon in Post(Some(skills), Some(level)).opportunities
  {
    KeptIff(skills, BeginnerHackathon);
  }

  /** Of the intermediate list, a React developer's skills keep the job and the bounty only. */
  lemma ReactKeepsJobAndBounty(skills: seq<string>)
    requires skills == ["React"]
    ensures Kept(skills, FrontendDeveloper) && Kept(skills, FixUiBug) && !Kept(skills, Web3Hackathon)
  {
    assert FrontendDeveloper.skills[1] in skills;
    assert FixUiBug.skills[1] in skills;
  }

  /** "Intermediate" selects the intermediate list. */
  lemma IntermediateSpelling(level: string)
    requires level == "Intermediate"
    ensures ParseLevel(Some(level)) == Intermediate
  {
    assert ToLower(level) == "intermediate";
  }

  /**
   * A React developer asking for "Intermediate" gets the job and the bounty
   * that list React, in list order, but not the Web3 hackathon.
   */
  lemma IntermediateReactExample(skills: seq<string>, level: string)
    requires skills == ["React"] && level == "Intermediate"
    ensures Post(Some(skills), Some(level)) == Found([FrontendDeveloper, FixUiBug], 2)
  {
    IntermediateSpelling(level);
    ReactKeepsJobAndBounty(skills);
    var p := o => Kept(skills, o);
    FilterCons(p, Web3Hackathon, []);
    FilterCons(p, FixUiBug, [Web3Hackathon]);
    FilterCons(p, FrontendDeveloper, [FixUiBug, Web3Hackathon]);
    assert Bucket(Intermediate) == [FrontendDeveloper] + [FixUiBug, Web3Hackathon];
  }

  /** "expert" is not a level name. */
  lemma ExpertIsUnrecognised(level: string)
    requires level == "expert"
    ensures ParseLevel(Some(level)) == Unrecognised
  {
    assert ToLower(level) == "expert";
  }

  /** An unknown level such as "expert" falls to the default list, whose two entries a JavaScript developer gets. */
  lemma UnknownLevelExample(skills: seq<string>, level: string)
    requires skills == ["JavaScript"] && level == "expert"
    ensures Post(Some(skills), Some(level)) == Found([WebDeveloper, ModernJavaScript], 2)
  {
    ExpertIsUnrecognised(level);
    var p := o => Kept(skills, o);
    assert Kept(skills, WebDeveloper) by { assert WebDeveloper.skills[0] in skills; }
    assert Kept(skills, ModernJavaScript) by { assert ModernJavaScript.skills[0] in skills; }
    FilterCons(p, ModernJavaScript, []);
    FilterCons(p, WebDeveloper, [ModernJavaScript]);
    assert Bucket(Unrecognised) == [WebDeveloper] + [ModernJavaScript];
  }
}
