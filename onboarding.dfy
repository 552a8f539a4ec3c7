/** The static onboarding content served by `GET /api/onboarding/steps`. */
module Onboarding {

  datatype Step = Step(id: string, title: string, description: string, actions: seq<string>, icon: string)

  /** The four steps, in their recommended order. */
  const OnboardingSteps: seq<Step> := [
    Step("claim-workspace",
         "Claim your Bizflow workspace",
         "Create an Experience Agent account, verify your email, and link your Supabase project so you can see interactions in one dashboard.",
         ["/api/agent", "/api/onboarding/steps"],
         "\U{1F5DD}\U{FE0F}"),
    Step("configure-agent",
         "Configure your concierge agent",
         "Define tone, personas, and default replies so the agent feels like part of your brand. Every change is stored in Supabase for analytics.",
         ["/api/interactions", "/api/dashboard/summary"],
         "\U{1F916}"),
    Step("invite-team",
         "Invite your team & stakeholders",
         "Share progress links, onboarding data, and dashboards with your customer success or ops leads so everyone knows how experiences perform.",
         ["/api/onboarding/progress", "/api/dashboard/summary"],
         "\U{1F310}"),
    Step("measure-and-iterate",
         "Measure, learn, repeat",
         "Pull consolidated metrics from the dashboard, celebrate wins, and push new prompts when the experience needs a boost.",
         ["/api/dashboard/summary"],
         "\U{1F4CA}")
  ]

  /** The steps in their recommended order; each step points at API
      routes of this server. */
  lemma StepsInOrder()
    ensures |OnboardingSteps| == 4
    ensures OnboardingSteps[0].id == "claim-workspace" && OnboardingSteps[1].id == "configure-agent"
    ensures OnboardingSteps[2].id == "invite-team" && OnboardingSteps[3].id == "measure-and-iterate"
    ensures forall i, j :: 0 <= i < |OnboardingSteps| && 0 <= j < |OnboardingSteps[i].actions| ==>
      "/api/" <= OnboardingSteps[i].actions[j]
  {
  }

  /** The `status` field of the listing: "connected" exactly when the store
      is configured, "unconfigured" otherwise. */
  function StepsStatus(configured: bool): (r: string)
    ensures r == "connected" <==> configured
    ensures !configured ==> r == "unconfigured"
  {
    if configured then "connected" else "unconfigured"
  }

  /** The `summary` field of the listing. */
  function StepsSummary(configured: bool): (r: string)
    ensures configured ==> r == "Supabase is wired\U{2014}output the steps directly to your UI."
    ensures !configured ==> r == "Supabase credentials missing. Steps are safe to display offline."
  {
    if configured then "Supabase is wired\U{2014}output the steps directly to your UI."
    else "Supabase credentials missing. Steps are safe to display offline."
  }
}
