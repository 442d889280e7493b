/** The plan form: the text template a plan is generated from, the usage gate
    that stops generation after two plans until the usage count is reset, and `handleSubmit`,
    which generates a plan from the form fields and records one use. */
module PlanForm {
  import opened Text
  import opened Optional
  import opened AppStore

  /** The title, naming the product. */
  function Title(d: FormData): seq<string> {
    [ "# 7-Day Marketing Plan for " + d.productName,
      "" ]
  }

  /** The executive summary. */
  function ExecutiveSummary(d: FormData): seq<string> {
    [ "## Executive Summary",
      "This comprehensive marketing plan is designed to help " + d.productName + " acquire its first 100 users within 7 days through targeted strategies and focused execution.",
      "" ]
  }

  /** One bold-labelled line per form field, in the form's order. */
  function FieldLines(d: FormData): seq<string> {
    [ "**Product:** " + d.productName,
      "**Description:** " + d.productDescription,
      "**Target Audience:** " + d.targetAudience,
      "**Budget:** " + d.budget,
      "**Primary Goals:** " + d.goals ]
  }

  /** The product overview: its heading, then the field lines. */
  function ProductOverview(d: FormData): seq<string> {
    [ "## Product Overview" ] + FieldLines(d) + [ "" ]
  }

  /** The heading of the day-by-day action plan. */
  function ActionPlanHeading(d: FormData): seq<string> {
    [ "## Day-by-Day Action Plan",
      "" ]
  }

  /** Day 1 of the action plan: its objective, tasks and expected outcome. */
  function Day1(d: FormData): seq<string> {
    [ "### Day 1: Foundation & Setup",
      "**Objective:** Establish your marketing foundation",
      "",
      "**Tasks:**",
      "• Set up Google Analytics and tracking pixels",
      "• Create social media profiles (Twitter, LinkedIn, Product Hunt)",
      "• Prepare launch assets (screenshots, demo videos, press kit)",
      "• Write your elevator pitch and key messaging",
      "• Set up email capture system",
      "",
      "**Expected Outcome:** Marketing infrastructure ready for launch",
      "" ]
  }

  /** Day 2 of the action plan: its objective, tasks and expected outcome. */
  function Day2(d: FormData): seq<string> {
    [ "### Day 2: Content Creation & SEO",
      "**Objective:** Create valuable content to attract your target audience",
      "",
      "**Tasks:**",
      "• Write 3 blog posts addressing your target audience's pain points",
      "• Create a landing page optimized for conversions",
      "• Set up basic SEO (meta tags, keywords, sitemap)",
      "• Prepare social media content calendar",
      "• Create a product demo video",
      "",
      "**Expected Outcome:** Content foundation established for organic discovery",
      "" ]
  }

  /** Day 3 of the action plan: its objective, tasks and expected outcome. */
  function Day3(d: FormData): seq<string> {
    [ "### Day 3: Community Engagement",
      "**Objective:** Build relationships in relevant communities",
      "",
      "**Tasks:**",
      "• Join 5-10 relevant online communities (Reddit, Discord, Slack groups)",
      "• Engage authentically in discussions (don't pitch immediately)",
      "• Share valuable insights and help solve problems",
      "• Connect with potential users on LinkedIn",
      "• Participate in relevant Twitter conversations",
      "",
      "**Expected Outcome:** 50+ meaningful community interactions",
      "" ]
  }

  /** Day 4 of the action plan: its objective, tasks and expected outcome. */
  function Day4(d: FormData): seq<string> {
    [ "### Day 4: Product Hunt & Launch Preparation",
      "**Objective:** Prepare for major launch platforms",
      "",
      "**Tasks:**",
      "• Submit to Product Hunt (schedule for optimal day)",
      "• Reach out to your network for launch day support",
      "• Prepare launch day social media posts",
      "• Create email announcement for your list",
      "• Set up launch day tracking and monitoring",
      "",
      "**Expected Outcome:** Launch strategy ready for execution",
      "" ]
  }

  /** Day 5 of the action plan: its objective, tasks and expected outcome. */
  function Day5(d: FormData): seq<string> {
    [ "### Day 5: Launch Day Execution",
      "**Objective:** Execute your launch and maximize visibility",
      "",
      "**Tasks:**",
      "• Go live on Product Hunt at 12:01 AM PST",
      "• Send launch announcement to your email list",
      "• Post on all social media channels",
      "• Engage with Product Hunt comments throughout the day",
      "• Reach out to press and bloggers with your story",
      "",
      "**Expected Outcome:** 200+ Product Hunt votes, 25+ new users",
      "" ]
  }

  /** Day 6 of the action plan: its objective, tasks and expected outcome. */
  function Day6(d: FormData): seq<string> {
    [ "### Day 6: Influencer & Partnership Outreach",
      "**Objective:** Leverage relationships for growth",
      "",
      "**Tasks:**",
      "• Identify 20 micro-influencers in your niche",
      "• Craft personalized outreach messages",
      "• Offer free access in exchange for honest reviews",
      "• Reach out to complementary SaaS tools for partnerships",
      "• Connect with industry newsletters for features",
      "",
      "**Expected Outcome:** 5+ influencer partnerships, 2+ newsletter features",
      "" ]
  }

  /** Day 7 of the action plan: its objective, tasks and expected outcome. */
  function Day7(d: FormData): seq<string> {
    [ "### Day 7: Optimization & Follow-up",
      "**Objective:** Optimize based on data and maintain momentum",
      "",
      "**Tasks:**",
      "• Analyze week's performance data",
      "• A/B test your landing page elements",
      "• Follow up with warm leads from the week",
      "• Plan next week's content and outreach",
      "• Celebrate your wins and document lessons learned",
      "",
      "**Expected Outcome:** 15+ additional users, clear optimization plan",
      "" ]
  }

  /** The metrics to track. */
  function Metrics(d: FormData): seq<string> {
    [ "## Key Metrics to Track",
      "",
      "### Primary Metrics:",
      "• **User Signups:** Target 100 users by end of week",
      "• **Conversion Rate:** Landing page visitors to signups",
      "• **Traffic Sources:** Which channels drive the most quality traffic",
      "• **Engagement Rate:** How users interact with your product",
      "",
      "### Secondary Metrics:",
      "• Social media followers and engagement",
      "• Email list growth",
      "• Product Hunt ranking and votes",
      "• Press mentions and backlinks",
      "" ]
  }

  /** How to spend the budget entered in the form. */
  function BudgetAllocation(d: FormData): seq<string> {
    [ "## Budget Allocation (Based on " + d.budget + ")",
      "",
      "### Recommended Spend:",
      "• **Paid Ads:** 40% - Focus on high-intent keywords",
      "• **Tools & Software:** 25% - Analytics, email marketing, design tools",
      "• **Content Creation:** 20% - Video editing, graphics, copywriting",
      "• **Influencer Partnerships:** 15% - Micro-influencer collaborations",
      "" ]
  }

  /** The success factors. */
  function SuccessFactors(d: FormData): seq<string> {
    [ "## Success Factors",
      "",
      "### Critical Success Factors:",
      "1. **Consistent Execution:** Follow the daily plan without skipping steps",
      "2. **Authentic Engagement:** Focus on building real relationships, not just pitching",
      "3. **Data-Driven Decisions:** Track everything and optimize based on results",
      "4. **Quality Over Quantity:** Better to have 50 engaged users than 200 inactive ones",
      "",
      "### Common Pitfalls to Avoid:",
      "• Trying to be everywhere at once",
      "• Focusing only on vanity metrics",
      "• Not following up with interested prospects",
      "• Giving up after day 3 if results aren't immediate",
      "" ]
  }

  /** What to do after the seven days. */
  function NextSteps(d: FormData): seq<string> {
    [ "## Next Steps After Week 1",
      "",
      "### Week 2 Focus Areas:",
      "• Double down on the channels that worked best",
      "• Implement user feedback and iterate on your product",
      "• Start building a content marketing engine",
      "• Develop a referral program for existing users",
      "",
      "### Long-term Strategy:",
      "• Build a sustainable content marketing system",
      "• Develop strategic partnerships",
      "• Implement a comprehensive email marketing funnel",
      "• Scale the tactics that proved most effective",
      "" ]
  }

  /** The conclusion, naming the product. */
  function Conclusion(d: FormData): seq<string> {
    [ "## Conclusion",
      "",
      "This 7-day plan is designed to give " + d.productName + " maximum visibility and user acquisition in a short timeframe. Success depends on consistent execution, authentic engagement, and rapid iteration based on data.",
      "",
      "Remember: The goal isn't just to get 100 users, but to get 100 users who love your product and will become advocates for your brand.",
      "" ]
  }

  /** The sign-off that closes every plan. */
  function SignOff(): seq<string> {
    [ "**Ready to launch? Let's make it happen! \U{1F680}**",
      "",
      "---",
      "",
      Signature ]
  }

  /** The generator's signature, the plan's last line. (Written in two parts
      so that proofs about it handle two short literals, not one long one.) */
  const Signature: string := "*Generated by SaaSMarketry Lite - " + "Your AI Marketing Strategist*"

  /** The template's sections, in order, up to the sign-off. */
  const Outline: seq<FormData -> seq<string>> :=
    [ Title, ExecutiveSummary, ProductOverview, ActionPlanHeading,
      Day1, Day2, Day3, Day4,
      Day5, Day6, Day7, Metrics,
      BudgetAllocation, SuccessFactors, NextSteps, Conclusion ]

  /** The lines of the given sections, in order, with the form fields filled
      in. (`d` is part of the decreases clause only so that the verifier does
      not unfold the whole outline whenever it meets it.) */
  function Render(sections: seq<FormData -> seq<string>>, d: FormData): seq<string>
    decreases sections, d
  {
    if sections == [] then [] else sections[0](d) + Render(sections[1..], d)
  }

  /** The template's lines, in order, with the form fields filled in. */
  function PlanLines(d: FormData): seq<string> {
    Render(Outline, d) + SignOff()
  }

  /** `generateMockMarketingPlan`: the template's lines joined by newlines. */
  function GenerateMockMarketingPlan(d: FormData): string {
    Join(PlanLines(d), '\n')
  }

  predicate NoBreaks(lines: seq<string>) {
    forall i :: 0 <= i < |lines| ==> '\n' !in lines[i]
  }

  predicate FieldsOnOneLine(d: FormData) {
    && '\n' !in d.productName && '\n' !in d.productDescription && '\n' !in d.targetAudience
    && '\n' !in d.budget && '\n' !in d.goals
  }

  /** The plan opens with its title line, naming the product. */
  lemma PlanStartsWithTitle(d: FormData)
    ensures StartsWith(GenerateMockMarketingPlan(d), "# 7-Day Marketing Plan for " + d.productName + "\n")
  {
    var lines := PlanLines(d);
    var rest := Join(lines[1..], '\n');
    assert lines[0] == "# 7-Day Marketing Plan for " + d.productName;
    assert GenerateMockMarketingPlan(d) == lines[0] + ['\n'] + rest;
    assert (lines[0] + ['\n'] + rest)[..|lines[0]| + 1] == lines[0] + ['\n'];
  }

  /** When the name is a single line, the title is the plan's first line. */
  lemma PlanFirstLine(d: FormData)
    requires '\n' !in d.productName
    ensures Split(GenerateMockMarketingPlan(d), '\n')[0] == "# 7-Day Marketing Plan for " + d.productName
  {
    var lines := PlanLines(d);
    assert lines[0] == "# 7-Day Marketing Plan for " + d.productName;
    assert '\n' !in "# 7-Day Marketing Plan for ";
    assert lines == lines[..1] + lines[1..];
    SplitJoinPrefix(lines[..1], lines[1..], '\n');
  }

  /** Rendering a non-empty outline renders its first section, then the rest. */
  lemma RenderCons(sections: seq<FormData -> seq<string>>, d: FormData)
    requires sections != []
    ensures Render(sections, d) == sections[0](d) + Render(sections[1..], d)
  {
  }

  /** Rendering two outlines in a row renders the first, then the second. */
  lemma {:induction false} RenderAppend(a: seq<FormData -> seq<string>>, b: seq<FormData -> seq<string>>, d: FormData)
    ensures Render(a + b, d) == Render(a, d) + Render(b, d)
  {
    if a == [] {
      assert a + b == b;
    } else {
      assert (a + b)[1..] == a[1..] + b;
      RenderAppend(a[1..], b, d);
    }
  }

  /** The lines of section `j` sit between those of the sections before and after it. */
  lemma RenderPicks(o: seq<FormData -> seq<string>>, j: nat, d: FormData)
    requires j < |o|
    ensures Render(o, d) == Render(o[..j], d) + o[j](d) + Render(o[j + 1..], d)
  {
    var rest := [o[j]] + o[j + 1..];
    assert o == o[..j] + rest;
    RenderAppend(o[..j], rest, d);
    RenderCons(rest, d);
    assert rest[1..] == o[j + 1..];
  }

  /** An unbroken run of a section's inner lines reappears, as consecutive
      lines, among the lines of the joined plan. */
  lemma SectionLinesInPlan(o: seq<FormData -> seq<string>>, j: nat, d: FormData, tail: seq<string>, k: nat, m: nat)
    requires j < |o| && 1 <= k < m < |o[j](d)|
    requires NoBreaks(o[j](d)[k..m])
    ensures var lines := Split(Join(Render(o, d) + tail, '\n'), '\n');
            exists n :: 0 <= n <= |lines| - (m - k) && lines[n..][..m - k] == o[j](d)[k..m]
  {
    var sect := o[j](d);
    RenderPicks(o, j, d);
    var front := Render(o[..j], d) + sect[..k];
    var mid := sect[k..m];
    var back := sect[m..] + Render(o[j + 1..], d) + tail;
    assert Render(o, d) + tail == front + mid + back by {
      assert sect == sect[..k] + mid + sect[m..];
    }
    SplitJoinInfix(front, mid, back, '\n');
    var n := |Split(Join(front, '\n'), '\n')|;
    var lines := Split(Join(Render(o, d) + tail, '\n'), '\n');
    assert lines[n..][..m - k] == mid;
  }

  /** When the fields are single lines, the five field lines appear in the
      plan as consecutive lines, in the form's order. */
  lemma PlanListsFields(d: FormData)
    requires FieldsOnOneLine(d)
    ensures var lines := Split(GenerateMockMarketingPlan(d), '\n');
            exists k :: 0 <= k <= |lines| - 5 && lines[k..][..5] == FieldLines(d)
  {
    assert Outline[2] == ProductOverview;
    assert ProductOverview(d)[1..6] == FieldLines(d);
    assert NoBreaks(FieldLines(d)) by {
      assert '\n' !in "**Product:** " && '\n' !in "**Description:** ";
      assert '\n' !in "**Target Audience:** " && '\n' !in "**Budget:** ";
      assert '\n' !in "**Primary Goals:** ";
    }
    SectionLinesInPlan(Outline, 2, d, SignOff(), 1, 6);
  }

  /** A run of a section's inner lines, joined by newlines, is a piece of the
      joined plan text, whatever the lines hold: it starts just after the
      lines before it and their newline. */
  lemma SectionTextInPlan(o: seq<FormData -> seq<string>>, j: nat, d: FormData, tail: seq<string>, k: nat, m: nat)
    requires j < |o| && 1 <= k < m < |o[j](d)|
    ensures var text := Join(Render(o, d) + tail, '\n');
            var f := Join(o[j](d)[k..m], '\n');
            var n := |Join(Render(o[..j], d) + o[j](d)[..k], '\n')| + 1;
            n <= |text| - |f| && text[n..][..|f|] == f
  {
    var sect := o[j](d);
    RenderPicks(o, j, d);
    var front := Render(o[..j], d) + sect[..k];
    var mid := sect[k..m];
    var back := sect[m..] + Render(o[j + 1..], d) + tail;
    assert Render(o, d) + tail == front + mid + back by {
      assert sect == sect[..k] + mid + sect[m..];
    }
    JoinThree(front, mid, back, '\n');
  }

  /** Whatever the fields hold, line breaks included, the five field lines
      joined by newlines are a piece of the plan text. */
  lemma PlanHoldsFieldText(d: FormData)
    ensures var f := Join(FieldLines(d), '\n');
            exists k :: 0 <= k <= |GenerateMockMarketingPlan(d)| - |f| && GenerateMockMarketingPlan(d)[k..][..|f|] == f
  {
    assert Outline[2] == ProductOverview;
    assert ProductOverview(d)[1..6] == FieldLines(d);
    SectionTextInPlan(Outline, 2, d, SignOff(), 1, 6);
    var n := |Join(Render(Outline[..2], d) + ProductOverview(d)[..1], '\n')| + 1;
    assert GenerateMockMarketingPlan(d)[n..][..|Join(FieldLines(d), '\n')|] == Join(FieldLines(d), '\n');
  }

  /** The sign-off's last three lines hold no line break. */
  lemma SignOffUnbroken()
    ensures NoBreaks(SignOff()[2..])
  {
    assert '\n' !in "*Generated by SaaSMarketry Lite - ";
    assert '\n' !in "Your AI Marketing Strategist*";
  }

  /** Whatever the fields hold, the plan ends with a rule, a blank line and
      the generator's signature. */
  lemma PlanClosing(d: FormData)
    ensures var lines := Split(GenerateMockMarketingPlan(d), '\n');
            && |lines| >= 3
            && lines[|lines| - 3..] == ["---", "", Signature]
  {
    var body := Render(Outline, d);
    var closing := SignOff()[2..];
    var front := body + SignOff()[..2];
    assert PlanLines(d) == front + closing by {
      assert SignOff() == SignOff()[..2] + closing;
    }
    SignOffUnbroken();
    SplitJoinSuffix(front, closing, '\n');
    assert closing == ["---", "", Signature];
  }

  /** Plans are generated at most this many times until the usage count is reset. */
  const UsageLimit: nat := 2

  /** `isDisabled`: the form's fields and its button are off once the limit is reached. */
  predicate IsDisabled(usageCount: nat) {
    usageCount >= UsageLimit
  }

  /** The submit button is off while a plan is being generated or once the limit is reached. */
  predicate SubmitDisabled(isGenerating: bool, usageCount: nat) {
    isGenerating || IsDisabled(usageCount)
  }

  /** The store after one submission that generates `plan`: unchanged at the
      limit; otherwise the plan is stored and one use is counted. */
  function SubmitWith(s: AppState, plan: string): AppState {
    if IsDisabled(s.usageCount) then s
    else Apply(Apply(s, SetPlan(plan)), Increment)
  }

  /** The store after one submission of the form as it stands. */
  function Submitted(s: AppState): AppState {
    SubmitWith(s, GenerateMockMarketingPlan(s.formData))
  }

  /** A submission changes the store exactly when the form is enabled, and
      then it stores the generated plan, counts one use and leaves the theme
      and the fields alone. */
  lemma SubmitEffect(s: AppState, plan: string)
    ensures IsDisabled(s.usageCount) <==> SubmitWith(s, plan) == s
    ensures !IsDisabled(s.usageCount) ==>
              && SubmitWith(s, plan).marketingPlan == Some(plan)
              && SubmitWith(s, plan).usageCount == s.usageCount + 1
              && SubmitWith(s, plan).isDarkMode == s.isDarkMode
              && SubmitWith(s, plan).formData == s.formData
  {
    if !IsDisabled(s.usageCount) {
      UsageActions(Apply(s, SetPlan(plan)));
    }
  }

  /** The button agrees with the gate: a click on an enabled button always
      counts a use, and when no plan is being generated the button is off
      exactly when a submission would be refused. */
  lemma ButtonMatchesGate(s: AppState, plan: string, isGenerating: bool)
    ensures !SubmitDisabled(isGenerating, s.usageCount) ==> SubmitWith(s, plan).usageCount == s.usageCount + 1
    ensures !isGenerating ==> (SubmitDisabled(isGenerating, s.usageCount) <==> SubmitWith(s, plan) == s)
  {
    SubmitEffect(s, plan);
  }

  /** The store after a run of submissions generating `plans`, in order. */
  function SubmitAll(s: AppState, plans: seq<string>): AppState
    decreases |plans|
  {
    if plans == [] then s else SubmitAll(SubmitWith(s, plans[0]), plans[1..])
  }

  /** From a count within the limit, submissions alone count up to the limit
      and no further; the theme and the fields stay as they were. */
  lemma {:induction false} SubmissionsSaturate(s: AppState, plans: seq<string>)
    requires s.usageCount <= UsageLimit
    ensures SubmitAll(s, plans).usageCount == if s.usageCount + |plans| <= UsageLimit then s.usageCount + |plans| else UsageLimit
    ensures SubmitAll(s, plans).isDarkMode == s.isDarkMode && SubmitAll(s, plans).formData == s.formData
    decreases |plans|
  {
    if plans != [] {
      SubmitEffect(s, plans[0]);
      SubmissionsSaturate(SubmitWith(s, plans[0]), plans[1..]);
    }
  }

  /** What a submission does, in order: the generating flag set, a plan
      stored, one use counted. */
  datatype SubmitStep = Generating(on: bool) | Stored(plan: string) | Counted

  /** The plan form's own state, beside the store it writes to. */
  class Form {
    const store: Store
    var isGenerating: bool
    /** Every change to the generating flag and every write to the store, in
        the order they happen. */
    ghost var log: seq<SubmitStep>

    constructor (store: Store)
      ensures this.store == store && !isGenerating && log == []
    {
      this.store := store;
      isGenerating := false;
      log := [];
    }

    /** `handleSubmit`: refuses at the limit; otherwise raises the flag,
        generates a plan from the current fields, stores it, counts one use
        and lowers the flag. */
    method HandleSubmit()
      modifies this, store
      ensures store.State() == Submitted(old(store.State()))
      ensures IsDisabled(old(store.usageCount)) ==>
                isGenerating == old(isGenerating) && log == old(log)
      ensures !IsDisabled(old(store.usageCount)) ==>
                && !isGenerating
                && log == old(log) + [Generating(true), Stored(GenerateMockMarketingPlan(old(store.formData))),
                                      Counted, Generating(false)]
    {
      if store.usageCount >= 2 {
        return;
      }
      isGenerating := true;
      log := log + [Generating(true)];
      var mockPlan := GenerateMockMarketingPlan(store.formData);
      store.SetMarketingPlan(mockPlan);
      log := log + [Stored(mockPlan)];
      store.IncrementUsage();
      log := log + [Counted];
      isGenerating := false;
      log := log + [Generating(false)];
    }
  }
}
