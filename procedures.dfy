/** The declared shape of the application router: for every procedure its
    path, whether it is a query or a mutation, and whether it is built from
    `publicProcedure` or `protectedProcedure`. The middleware that enforces the
    declaration is not part of this model; only the declarations are. */
module Procedures {
  import opened Common
  import Tables

  datatype Kind = Query | Mutation
  datatype Access = Public | Protected

  /** A procedure, named by its dotted path through the nested routers. */
  datatype Procedure = Procedure(path: string, kind: Kind, access: Access)

  /** Every procedure of the application router, in declaration order (the
      `system` sub-router is defined elsewhere and is not listed). */
  const AppProcedures: seq<Procedure> := BookmarksRouter + AuthRouter + LaterRouters

  /** The application router declares 55 procedures besides the `system`
      sub-router: 9 under `bookmarks`, 2 under `auth` and 44 after them. */
  lemma AppProceduresCount()
    ensures |BookmarksRouter| == 9 && |AuthRouter| == 2 && |LaterRouters| == 44
    ensures |AppProcedures| == 55
  {
  }

  /** The namespaces declared after `auth`, in order. */
  const LaterRouters: seq<Procedure> :=
    PreferencesRouter + JobsRouter + InterviewsRouter + MockInterviewRouter
    + OnboardingRouter + KnowledgeBaseRouter + TopicPracticeRouter + ResumeRouter
    + JobTrackerRouter + LinkedinRouter + JobhProfileRouter + AiToolboxRouter + SkillAnalysisRouter

  const BookmarksRouter: seq<Procedure> := [
    Procedure("bookmarks.list", Query, Protected),
    Procedure("bookmarks.add", Mutation, Protected),
    Procedure("bookmarks.remove", Mutation, Protected),
    Procedure("bookmarks.practice", Mutation, Protected),
    Procedure("bookmarks.isBookmarked", Query, Protected),
    Procedure("bookmarks.updateNotes", Mutation, Protected),
    Procedure("bookmarks.updateCategory", Mutation, Protected),
    Procedure("bookmarks.listByCategory", Query, Protected),
    Procedure("bookmarks.categories", Query, Protected)
  ]

  const AuthRouter: seq<Procedure> := [
    Procedure("auth.me", Query, Public),
    Procedure("auth.logout", Mutation, Public)
  ]

  const PreferencesRouter: seq<Procedure> := [
    Procedure("preferences.get", Query, Protected),
    Procedure("preferences.save", Mutation, Protected)
  ]

  const JobsRouter: seq<Procedure> := [
    Procedure("jobs.list", Query, Protected),
    Procedure("jobs.generateRecommendations", Mutation, Protected),
    Procedure("jobs.generateMock", Mutation, Protected),
    Procedure("jobs.getById", Query, Protected)
  ]

  const InterviewsRouter: seq<Procedure> := [
    Procedure("interviews.list", Query, Protected),
    Procedure("interviews.create", Mutation, Protected),
    Procedure("interviews.getById", Query, Protected),
    Procedure("interviews.delete", Mutation, Protected)
  ]

  const MockInterviewRouter: seq<Procedure> := [
    Procedure("mockInterview.list", Query, Protected),
    Procedure("mockInterview.create", Mutation, Protected),
    Procedure("mockInterview.getById", Query, Protected),
    Procedure("mockInterview.update", Mutation, Protected),
    Procedure("mockInterview.messages.list", Query, Protected),
    Procedure("mockInterview.messages.create", Mutation, Protected),
    Procedure("mockInterview.assessmentReport.get", Query, Protected),
    Procedure("mockInterview.assessmentReport.list", Query, Protected),
    Procedure("mockInterview.assessmentReport.create", Mutation, Protected)
  ]

  const OnboardingRouter: seq<Procedure> := [
    Procedure("onboarding.saveProfile", Mutation, Protected),
    Procedure("onboarding.parseResume", Mutation, Protected)
  ]

  const KnowledgeBaseRouter: seq<Procedure> := [
    Procedure("knowledgeBase.list", Query, Protected),
    Procedure("knowledgeBase.getById", Query, Protected),
    Procedure("knowledgeBase.getOrCreate", Mutation, Protected),
    Procedure("knowledgeBase.search", Query, Protected)
  ]

  const TopicPracticeRouter: seq<Procedure> := [
    Procedure("topicPractice.generateQuestion", Mutation, Protected),
    Procedure("topicPractice.submitAnswer", Mutation, Protected)
  ]

  const ResumeRouter: seq<Procedure> := [
    Procedure("resume.list", Query, Protected),
    Procedure("resume.parse", Mutation, Protected)
  ]

  const JobTrackerRouter: seq<Procedure> := [
    Procedure("jobTracker.list", Query, Protected),
    Procedure("jobTracker.create", Mutation, Protected),
    Procedure("jobTracker.update", Mutation, Protected),
    Procedure("jobTracker.delete", Mutation, Protected)
  ]

  const LinkedinRouter: seq<Procedure> := [
    Procedure("linkedin.scrapeJobs", Mutation, Protected),
    Procedure("linkedin.scrapeCompany", Mutation, Protected),
    Procedure("linkedin.getAccountInfo", Query, Protected)
  ]

  const JobhProfileRouter: seq<Procedure> := [
    Procedure("jobhProfile.get", Query, Protected),
    Procedure("jobhProfile.stats", Query, Protected),
    Procedure("jobhProfile.update", Mutation, Protected)
  ]

  const AiToolboxRouter: seq<Procedure> := [
    Procedure("aiToolbox.generateCoverLetter", Mutation, Protected),
    Procedure("aiToolbox.optimizeResume", Mutation, Protected),
    Procedure("aiToolbox.generateInterviewQuestions", Mutation, Protected)
  ]

  const SkillAnalysisRouter: seq<Procedure> := [
    Procedure("skillAnalysis.analyze", Mutation, Protected),
    Procedure("skillAnalysis.getMarketTrends", Query, Protected)
  ]

  function HasPath(path: string): Procedure -> bool {
    (p: Procedure) => p.path == path
  }

  /** The declaration registered under `path`, if any. */
  function Lookup(path: string): (r: Option<Procedure>)
    ensures r.Some? ==> r.value in AppProcedures && r.value.path == path
    ensures r.None? ==> forall p :: p in AppProcedures ==> p.path != path
  {
    Tables.Find(AppProcedures, HasPath(path))
  }

  /** Only `auth.me` and `auth.logout` are public; every other procedure is
      protected. */
  lemma OnlyAuthIsPublic(p: Procedure)
    requires p in AppProcedures
    ensures p.access == Public ==> p.path == "auth.me" || p.path == "auth.logout"
  {
    var b, a, later := |BookmarksRouter|, |AuthRouter|, LaterRouters;
    var idx :| 0 <= idx < |AppProcedures| && AppProcedures[idx] == p;
    if idx < b {
      assert AllProtected(BookmarksRouter);
      assert p == BookmarksRouter[idx];
    } else if idx < b + a {
      assert p == AuthRouter[idx - b];
    } else {
      LaterRoutersProtected();
      assert p == later[idx - b - a];
    }
  }

  /** Every namespace after `auth` is made of protected procedures only. */
  lemma LaterRoutersProtected()
    ensures AllProtected(LaterRouters)
  {
    RoutersProtected();
    var acc := PreferencesRouter;
    AllProtectedConcat(acc, JobsRouter);
    acc := acc + JobsRouter;
    AllProtectedConcat(acc, InterviewsRouter);
    acc := acc + InterviewsRouter;
    AllProtectedConcat(acc, MockInterviewRouter);
    acc := acc + MockInterviewRouter;
    AllProtectedConcat(acc, OnboardingRouter);
    acc := acc + OnboardingRouter;
    AllProtectedConcat(acc, KnowledgeBaseRouter);
    acc := acc + KnowledgeBaseRouter;
    AllProtectedConcat(acc, TopicPracticeRouter);
    acc := acc + TopicPracticeRouter;
    AllProtectedConcat(acc, ResumeRouter);
    acc := acc + ResumeRouter;
    AllProtectedConcat(acc, JobTrackerRouter);
    acc := acc + JobTrackerRouter;
    AllProtectedConcat(acc, LinkedinRouter);
    acc := acc + LinkedinRouter;
    AllProtectedConcat(acc, JobhProfileRouter);
    acc := acc + JobhProfileRouter;
    AllProtectedConcat(acc, AiToolboxRouter);
    acc := acc + AiToolboxRouter;
    AllProtectedConcat(acc, SkillAnalysisRouter);
    acc := acc + SkillAnalysisRouter;
  }

  lemma RoutersProtected()
    ensures AllProtected(PreferencesRouter)
    ensures AllProtected(JobsRouter)
    ensures AllProtected(InterviewsRouter)
    ensures AllProtected(MockInterviewRouter)
    ensures AllProtected(OnboardingRouter)
    ensures AllProtected(KnowledgeBaseRouter)
    ensures AllProtected(TopicPracticeRouter)
    ensures AllProtected(ResumeRouter)
    ensures AllProtected(JobTrackerRouter)
    ensures AllProtected(LinkedinRouter)
    ensures AllProtected(JobhProfileRouter)
    ensures AllProtected(AiToolboxRouter)
    ensures AllProtected(SkillAnalysisRouter)
  {
  }

  lemma AllProtectedConcat(a: seq<Procedure>, b: seq<Procedure>)
    requires AllProtected(a) && AllProtected(b)
    ensures AllProtected(a + b)
  {
  }

  /** Every procedure of `s` is protected. */
  ghost predicate AllProtected(s: seq<Procedure>) {
    forall i :: 0 <= i < |s| ==> s[i].access == Protected
  }

  /** Both procedures of the `auth` router are declared public. */
  lemma AuthProceduresArePublic()
    ensures Procedure("auth.me", Query, Public) in AppProcedures
    ensures Procedure("auth.logout", Mutation, Public) in AppProcedures
  {
    assert AuthRouter[0] == Procedure("auth.me", Query, Public);
    assert AuthRouter[1] == Procedure("auth.logout", Mutation, Public);
  }

  /** `bookmarks.add` is a protected mutation. */
  lemma BookmarksAddDeclaration()
    ensures Lookup("bookmarks.add") == Some(Procedure("bookmarks.add", Mutation, Protected))
  {
    assert AppProcedures[..|BookmarksRouter|] == BookmarksRouter;
    assert Tables.IsFirstMatch(AppProcedures, HasPath("bookmarks.add"), 1);
    Tables.FirstMatchUnique(AppProcedures, HasPath("bookmarks.add"), 1,
                            Tables.FindIndex(AppProcedures, HasPath("bookmarks.add")).value);
  }
}
