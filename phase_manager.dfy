/**
 * The comments the phase manager posts when a feature enters a phase: the
 * kickoff of the specification phase, which names the branch and the
 * worktree, and the first gate's approval request, which tells the reviewer
 * which words approve. Posting them is left to the caller.
 */
module PhaseManagers {
  import opened Text

  /** `execute_phase_2`'s body. */
  function KickoffBody(issue: int, branch: string, worktree: string): (r: string)
    ensures Contains(r, branch) && Contains(r, worktree)
  {
    var before := "\U{1F4CB} **Phase 2: Architecture Specs**\n" +
      "\n" +
      "@duc - Please analyze this feature and write architecture specifications.\n" +
      "\n" +
      "**Task**:\n" +
      "- Review the feature requirements\n" +
      "- Design the system architecture\n" +
      "- Document specs in `.plans/" + IntToString(issue) + "/specs/`\n" +
      "- Post \U{2705} when complete\n" +
      "\n" +
      "**Context**:\n" +
      "- Branch: `";
    var middle := "`\n- Worktree: `";
    var after := "`\n";
    ContainsSuffix(before, branch);
    ContainsBefore(before + branch, middle + worktree + after, branch);
    assert before + branch + middle + worktree + after == before + branch + (middle + worktree + after);
    ContainsSuffix(before + branch + middle, worktree);
    ContainsBefore(before + branch + middle + worktree, after, worktree);
    before + branch + middle + worktree + after
  }

  /** `execute_gate_1`'s body, around the line that says how to approve. */
  function ApprovalRequestBody(issue: int): string {
    RequestLead + IntToString(issue) + "/specs/`\n\n" + ApproveHow + RequestTail
  }

  const RequestLead: string :=
    "\U{23F8}\U{FE0F} **Gate 1: Spec Approval Required**\n" +
    "\n" +
    "@duc has completed the architecture specifications. Please review:\n" +
    "\n" +
    "\U{1F4C1} Specs location: `.plans/"

  const ApproveHow: string := "**To approve and proceed to Phase 3:**\n"

  const RequestTail: string :=
    "- Comment: `approved` or `lgtm`\n" +
    "- Or use the Farm Code UI approval button\n" +
    "\n" +
    "**To request changes:**\n" +
    "- Comment with feedback\n" +
    "- @duc will revise\n"

  /** The request names the words that approve, so once lower-cased it holds
      "approve" itself. */
  lemma ApprovalRequestSaysApprove(issue: int)
    ensures Contains(Lower(ApprovalRequestBody(issue)), "approve")
  {
    var lead := RequestLead + IntToString(issue) + "/specs/`\n\n";
    HowSaysApprove();
    LowerAppend(lead, ApproveHow);
    ContainsAfter(Lower(lead), Lower(ApproveHow), "approve");
    LowerAppend(lead + ApproveHow, RequestTail);
    ContainsBefore(Lower(lead + ApproveHow), Lower(RequestTail), "approve");
  }

  lemma HowSaysApprove()
    ensures Contains(Lower(ApproveHow), "approve")
  {
    HowLowered();
    ContainsAt(Lower(ApproveHow), "approve", 5);
  }

  lemma HowLowered()
    ensures Lower(ApproveHow)[5..12] == "approve"
  {
    HowSpelled();
    var how := Lower(ApproveHow);
    forall i | 0 <= i < 7
      ensures how[5 + i] == "approve"[i]
    {
      assert how[5 + i] == LowerChar(ApproveHow[5 + i]);
    }
  }

  lemma HowSpelled()
    ensures ApproveHow[5..12] == "approve"
  {
    assert ApproveHow[5] == 'a' && ApproveHow[6] == 'p' && ApproveHow[7] == 'p' && ApproveHow[8] == 'r';
    assert ApproveHow[9] == 'o' && ApproveHow[10] == 'v' && ApproveHow[11] == 'e';
  }
}
