/** `skillAnalysis.analyze`: a canned analysis that echoes the first three
    skills it is given. */
module SkillAnalysis {
  import Tables

  datatype Analysis = Analysis(
    matchScore: int,
    matchedSkills: seq<string>,
    missingSkills: seq<string>,
    recommendations: seq<string>)

  /** The matched skills are `skills.slice(0, 3)`; everything else is fixed. */
  function Analyze(skills: seq<string>, targetRole: string): (r: Analysis)
    ensures r.matchedSkills <= skills
    ensures |r.matchedSkills| == if |skills| < 3 then |skills| else 3
    ensures r.matchScore == 85
    ensures r.missingSkills == ["Docker", "Kubernetes"]
    ensures r.recommendations == ["Learn containerization", "Practice system design"]
  {
    Analysis(85, Tables.SliceTo(skills, 3), ["Docker", "Kubernetes"],
             ["Learn containerization", "Practice system design"])
  }

  /** The analysis ignores the target role and every skill after the third. */
  lemma AnalyzeSeesOnlyFirstThree(skills: seq<string>, more: seq<string>, role1: string, role2: string)
    requires |skills| >= 3
    ensures Analyze(skills + more, role1) == Analyze(skills, role2)
  {
    assert (skills + more)[..3] == skills[..3];
  }
}
