/**
 * The job hunt page's list filter: a job is shown when the search text
 * (compared without regard to letter case) occurs in its title, its company
 * or one of its skills, and its type and location pass the two selectors,
 * where 'all' admits everything.
 */
module JobHunt {
  import opened Text
  import opened Seqs

  datatype Job = Job(id: nat, title: string, company: string, location: string, jobType: string,
                     skills: seq<string>, description: string, link: string)

  /** The page's filter state. */
  datatype JobFilter = JobFilter(search: string, jobType: string, location: string)

  /** The selector value that imposes no constraint. */
  const All := "all"

  const InitialFilter := JobFilter("", All, All)

  /** The jobs the page loads. */
  const Jobs: seq<Job> := [
    Job(1, "Frontend Developer", "TechCorp", "Remote", "Full-time", ["React", "JavaScript", "CSS"],
        "We're looking for a Frontend Developer with experience in React to join our team.", "#"),
    Job(2, "Full Stack Engineer", "StartupXYZ", "New York, USA", "Full-time", ["Node.js", "React", "MongoDB"],
        "Join our fast-growing startup as a Full Stack Engineer working on exciting products.", "#"),
    Job(3, "React Native Developer", "MobileApp Inc", "Remote", "Contract", ["React Native", "JavaScript", "Mobile Development"],
        "Looking for a React Native developer to help build our mobile applications.", "#"),
    Job(4, "Frontend Intern", "LearnTech", "San Francisco, USA", "Internship", ["HTML", "CSS", "JavaScript"],
        "Great opportunity for beginners to gain experience in web development.", "#")
  ]

  predicate MatchesSearch(job: Job, search: string)
  {
    var q := ToLower(search);
    || Includes(ToLower(job.title), q)
    || Includes(ToLower(job.company), q)
    || exists s :: s in job.skills && Includes(ToLower(s), q)
  }

  /** The texts the search looks in: the title, the company and every skill. */
  function SearchedFields(job: Job): seq<string>
  {
    [job.title, job.company] + job.skills
  }

  /** A search matches exactly when it occurs, up to letter case, at some position of a searched field. */
  lemma MatchesSearchIff(job: Job, search: string)
    ensures MatchesSearch(job, search)
        <==> exists f, i :: f in SearchedFields(job) && OccursAt(ToLower(f), ToLower(search), i)
  {
    if MatchesSearch(job, search) {
      var f, i := MatchedField(job, search);
      assert f in SearchedFields(job) && OccursAt(ToLower(f), ToLower(search), i);
      assert exists f, i :: f in SearchedFields(job) && OccursAt(ToLower(f), ToLower(search), i);
    } else {
      forall f, i | f in SearchedFields(job)
        ensures !OccursAt(ToLower(f), ToLower(search), i)
      {
        if OccursAt(ToLower(f), ToLower(search), i) {
          FieldOccurrenceMatches(job, search, f, i);
        }
      }
    }
  }

  /** A searched field that contains the lower-cased search, when the search matches. */
  lemma MatchedField(job: Job, search: string) returns (f: string, i: int)
    requires MatchesSearch(job, search)
    ensures f in SearchedFields(job) && OccursAt(ToLower(f), ToLower(search), i)
  {
    var q := ToLower(search);
    if Includes(ToLower(job.title), q) {
      f := job.title;
    } else if Includes(ToLower(job.company), q) {
      f := job.company;
    } else {
      f :| f in job.skills && Includes(ToLower(f), q);
    }
    IncludesIff(ToLower(f), q);
    i :| OccursAt(ToLower(f), q, i);
  }

  /** An occurrence in any searched field makes the search match. */
  lemma FieldOccurrenceMatches(job: Job, search: string, f: string, i: int)
    requires f in SearchedFields(job) && OccursAt(ToLower(f), ToLower(search), i)
    ensures MatchesSearch(job, search)
  {
    IncludesIff(ToLower(f), ToLower(search));
    assert f == job.title || f == job.company || f in job.skills;
  }

  predicate MatchesJobType(job: Job, jobType: string)
  {
    jobType == All || job.jobType == jobType
  }

  predicate MatchesLocation(job: Job, location: string)
  {
    location == All || job.location == location
  }

  predicate Shown(filter: JobFilter, job: Job)
  {
    MatchesSearch(job, filter.search) && MatchesJobType(job, filter.jobType) && MatchesLocation(job, filter.location)
  }

  /** The filter callback as a value. */
  function ShownBy(filter: JobFilter): Job -> bool
  {
    j => Shown(filter, j)
  }

  /** `filteredJobs`: the jobs of `jobs` that pass all three tests. */
  function FilteredJobs(jobs: seq<Job>, filter: JobFilter): (r: seq<Job>)
    ensures forall i :: 0 <= i < |r| ==> r[i] in jobs && Shown(filter, r[i])
    ensures forall i :: 0 <= i < |jobs| && Shown(filter, jobs[i]) ==> jobs[i] in r
  {
    Filter(ShownBy(filter), jobs)
  }

  /** A skill spelled "React" or "React Native" contains the search "react". */
  lemma ReactSkill(s: string)
    requires s == "React" || s == "React Native"
    ensures Includes(ToLower(s), ToLower("react"))
  {
    ToLowerNoUpper("react");
    ToLowerSlice(s, 0, 5);
    assert ToLower(s[0..5]) == "react";
    assert OccursAt(ToLower(s), "react", 0);
    IncludesIff(ToLower(s), "react");
  }

  /** "learntech" has every letter of "react" but not the word. */
  lemma NoReactInLearnTech(t: string)
    requires t == "learntech"
    ensures !Includes(t, "react")
  {
    forall i | 0 <= i <= |t| - 5
      ensures !OccursAt(t, "react", i)
    {
      assert t[i..i + 5][0] == t[i] && t[i..i + 5][1] == t[i + 1];
    }
    IncludesIff(t, "react");
  }

  /** "Frontend Intern" has no "a", so it does not contain "react", up to case. */
  lemma InternTitleNotReact(title: string)
    requires title == "Frontend Intern"
    ensures !Includes(ToLower(title), "react")
  {
    assert 'a' !in title && 'A' !in title;
    assert 'a' !in ToLower(title);
    NotIncludedMissingChar(ToLower(title), "react", 'a');
  }

  /** "LearnTech" does not contain "react", up to case. */
  lemma InternCompanyNotReact(company: string)
    requires company == "LearnTech"
    ensures !Includes(ToLower(company), "react")
  {
    assert ToLower(company) == "learntech";
    NoReactInLearnTech(ToLower(company));
  }

  /** A text without the letter "e", in either case, does not contain "react", up to case. */
  lemma NoLetterENotReact(s: string)
    requires 'e' !in s && 'E' !in s
    ensures !Includes(ToLower(s), "react")
  {
    assert forall i :: 0 <= i < |s| ==> ToLower(s)[i] != 'e';
    NotIncludedMissingChar(ToLower(s), "react", 'e');
  }

  /** Skills that all lack an "e" (such as "HTML", "CSS" and "JavaScript") contain no "react", up to case. */
  lemma InternshipSkillsNotReact(skills: seq<string>)
    requires forall s :: s in skills ==> 'e' !in s && 'E' !in s
    ensures forall s :: s in skills ==> !Includes(ToLower(s), "react")
  {
    forall s | s in skills
      ensures !Includes(ToLower(s), "react")
    {
      NoLetterENotReact(s);
    }
  }

  /** The internship lists React nowhere: not in its title, its company or its skills. */
  lemma InternshipIsNotReact(job: Job, search: string)
    requires job.title == "Frontend Intern" && job.company == "LearnTech"
    requires forall s :: s in job.skills ==> 'e' !in s && 'E' !in s
    requires search == "react"
    ensures !MatchesSearch(job, search)
  {
    ToLowerNoUpper(search);
    InternTitleNotReact(job.title);
    InternCompanyNotReact(job.company);
    InternshipSkillsNotReact(job.skills);
  }

  /** A job with a skill spelled "React" or "React Native" is listed for the search "react" when both selectors are 'all'. */
  lemma ReactSkillShown(job: Job, search: string, k: nat)
    requires search == "react" && k < |job.skills|
    requires job.skills[k] == "React" || job.skills[k] == "React Native"
    ensures ShownBy(JobFilter(search, All, All))(job)
  {
    ReactSkill(job.skills[k]);
    assert job.skills[k] in job.skills;
  }

  /** Three jobs listed for "react" followed by one that is not: the search keeps the three, in order. */
  lemma FilterThreeOfFour(search: string, j0: Job, j1: Job, j2: Job, j3: Job)
    requires var p := ShownBy(JobFilter(search, All, All)); p(j0) && p(j1) && p(j2) && !p(j3)
    ensures FilteredJobs([j0, j1, j2, j3], JobFilter(search, All, All)) == [j0, j1, j2]
  {
    var p := ShownBy(JobFilter(search, All, All));
    FilterCons(p, j3, []);
    FilterCons(p, j2, [j3]);
    FilterCons(p, j1, [j2, j3]);
    FilterCons(p, j0, [j1, j2, j3]);
    assert [j0, j1, j2, j3] == [j0] + [j1, j2, j3];
  }

  /** The fields of the page's four jobs that the search "react" looks at. */
  predicate ReactFacts(jobs: seq<Job>)
  {
    && |jobs| == 4
    && |jobs[0].skills| > 0 && jobs[0].skills[0] == "React"
    && |jobs[1].skills| > 1 && jobs[1].skills[1] == "React"
    && |jobs[2].skills| > 0 && jobs[2].skills[0] == "React Native"
    && jobs[3].title == "Frontend Intern" && jobs[3].company == "LearnTech"
    && (forall s :: s in jobs[3].skills ==> 'e' !in s && 'E' !in s)
  }

  /** The page's job list has those fields. */
  lemma PageJobsReactFacts(jobs: seq<Job>)
    requires jobs == Jobs
    ensures ReactFacts(jobs)
  {
  }

  /** On four jobs like the page's, searching "react" lists the first three, in order, and not the fourth. */
  lemma ReactSearchOnFour(jobs: seq<Job>, search: string)
    requires ReactFacts(jobs) && search == "react"
    ensures FilteredJobs(jobs, JobFilter(search, All, All)) == jobs[..3]
  {
    ReactSkillShown(jobs[0], search, 0);
    ReactSkillShown(jobs[1], search, 1);
    ReactSkillShown(jobs[2], search, 0);
    InternshipIsNotReact(jobs[3], search);
    FilterThreeOfFour(search, jobs[0], jobs[1], jobs[2], jobs[3]);
    assert jobs == [jobs[0], jobs[1], jobs[2], jobs[3]];
  }

  /**
   * On the page's own job list, searching "react" with both selectors at
   * 'all' lists the first three jobs, in page order, and not the internship.
   */
  lemma ReactSearchExample(jobs: seq<Job>, search: string)
    requires jobs == Jobs && search == "react"
    ensures FilteredJobs(jobs, JobFilter(search, All, All)) == jobs[..3]
  {
    PageJobsReactFacts(jobs);
    ReactSearchOnFour(jobs, search);
  }

  /** The list keeps the page's order: it is `jobs` read at exactly the positions of shown jobs. */
  lemma FilteredJobsInOrder(jobs: seq<Job>, filter: JobFilter)
    ensures var idx := KeptIndices(ShownBy(filter), jobs);
            && Selects(idx, jobs, FilteredJobs(jobs, filter))
            && forall i :: 0 <= i < |jobs| ==> (i in idx <==> Shown(filter, jobs[i]))
  {
    FilterSelectsKept(ShownBy(filter), jobs);
    KeptIndicesExact(ShownBy(filter), jobs);
  }

  /** The selectors: 'all' admits every job, any other value only the jobs with exactly that value. */
  lemma SelectorsExactOrWildcard(job: Job, filter: JobFilter)
    ensures filter.jobType == All ==> MatchesJobType(job, filter.jobType)
    ensures filter.jobType != All ==> (MatchesJobType(job, filter.jobType) <==> job.jobType == filter.jobType)
    ensures filter.location == All ==> MatchesLocation(job, filter.location)
    ensures filter.location != All ==> (MatchesLocation(job, filter.location) <==> job.location == filter.location)
  {
  }

  /** With the initial filter (empty search, both selectors 'all') every job is listed. */
  lemma InitialFilterShowsAll(jobs: seq<Job>)
    ensures FilteredJobs(jobs, InitialFilter) == jobs
  {
    forall j | j in jobs
      ensures Shown(InitialFilter, j)
    {
      assert ToLower("") == "";
      IncludesEmpty(ToLower(j.title));
    }
    FilterKeepsAll(ShownBy(InitialFilter), jobs);
  }

  /** Searches that differ only in letter case list the same jobs. */
  lemma SearchCaseInsensitive(jobs: seq<Job>, filter: JobFilter, other: string)
    requires EqualIgnoringCase(filter.search, other)
    ensures FilteredJobs(jobs, filter.(search := other)) == FilteredJobs(jobs, filter)
  {
    ToLowerEqualIff(filter.search, other);
    var f' := filter.(search := other);
    forall j | j in jobs
      ensures ShownBy(f')(j) == ShownBy(filter)(j)
    {
      assert MatchesSearch(j, other) == MatchesSearch(j, filter.search);
    }
    FilterCongruent(ShownBy(f'), ShownBy(filter), jobs);
  }

  /** A job matching a search also matches every part of that search. */
  lemma MatchesSearchMonotone(job: Job, search: string, part: string)
    requires Includes(search, part) && MatchesSearch(job, search)
    ensures MatchesSearch(job, part)
  {
    var q, p := ToLower(search), ToLower(part);
    IncludesToLower(search, part);
    if Includes(ToLower(job.title), q) {
      IncludesTransitive(ToLower(job.title), q, p);
    } else if Includes(ToLower(job.company), q) {
      IncludesTransitive(ToLower(job.company), q, p);
    } else {
      var s :| s in job.skills && Includes(ToLower(s), q);
      IncludesTransitive(ToLower(s), q, p);
    }
  }

  /**
   * Typing more narrows the list: the jobs listed for a longer search are
   * the jobs listed for any part of it, filtered again by the longer search.
   */
  lemma LongerSearchNarrows(jobs: seq<Job>, filter: JobFilter, longer: string)
    requires Includes(longer, filter.search)
    ensures FilteredJobs(jobs, filter.(search := longer))
         == Filter(ShownBy(filter.(search := longer)), FilteredJobs(jobs, filter))
  {
    var f' := filter.(search := longer);
    forall j | j in jobs && ShownBy(f')(j)
      ensures ShownBy(filter)(j)
    {
      MatchesSearchMonotone(j, longer, filter.search);
    }
    FilterNarrowing(ShownBy(filter), ShownBy(f'), jobs);
  }
}
