/** The safety advice shown on the confirmation screen, chosen by the reported category. */
module SafetyAdvice {
  import opened Common
  import opened ReportModel

  /** A title with its list of recommended actions. */
  datatype Advice = Advice(title: string, steps: seq<string>)

  /** The four branches of the `switch`. */
  datatype Topic = DomesticViolenceTopic | SexualAssaultTopic | StalkingTopic | GeneralTopic

  /** The `switch (category)`: exact matches on three texts, the default for anything else. */
  function TopicOf(category: Option<string>): (t: Topic)
    ensures t == DomesticViolenceTopic <==> category == Some("Domestic Violence")
    ensures t == SexualAssaultTopic <==> category == Some("Sexual Assault")
    ensures t == StalkingTopic <==> category == Some("Stalking")
  {
    if category == Some("Domestic Violence") then DomesticViolenceTopic
    else if category == Some("Sexual Assault") then SexualAssaultTopic
    else if category == Some("Stalking") then StalkingTopic
    else GeneralTopic
  }

  /** The recommended actions of each branch, in display order. */
  const DomesticViolenceSteps: seq<string> := [
    "Silence your phone immediately.",
    "Identify the safest room (one with a lock or window). Avoid the kitchen (knives) or garage.",
    "If an argument starts, stay near an exit.",
    "Clear your browser history after reading this."]

  const SexualAssaultSteps: seq<string> := [
    "Go to a safe place away from the perpetrator.",
    "Try not to shower, change clothes, or clean up yet (this preserves DNA evidence).",
    "Seek medical attention even if you don't see injuries.",
    "You are not alone. It is not your fault."]

  const StalkingSteps: seq<string> := [
    "Document every interaction (time, date, location).",
    "Change your passwords and enable 2-Factor Authentication.",
    "Vary your daily routes to work/school.",
    "Do not engage or reply to the stalker."]

  const GeneralSteps: seq<string> := [
    "Trust your instincts. If you feel unsafe, leave.",
    "Keep your phone charged and on you.",
    "Establish a 'Code Word' with a trusted friend to signal trouble."]

  /** The advice of each branch: its title and its list of steps. */
  function AdviceFor(t: Topic): (a: Advice)
    ensures t == DomesticViolenceTopic ==> a == Advice("Safety First Protocol", DomesticViolenceSteps)
    ensures t == SexualAssaultTopic ==> a == Advice("Preservation & Care", SexualAssaultSteps)
    ensures t == StalkingTopic ==> a == Advice("Anti-Surveillance Steps", StalkingSteps)
    ensures t == GeneralTopic ==> a == Advice("General Safety Guide", GeneralSteps)
  {
    match t
    case DomesticViolenceTopic => Advice("Safety First Protocol", DomesticViolenceSteps)
    case SexualAssaultTopic => Advice("Preservation & Care", SexualAssaultSteps)
    case StalkingTopic => Advice("Anti-Surveillance Steps", StalkingSteps)
    case GeneralTopic => Advice("General Safety Guide", GeneralSteps)
  }

  /**
   * `getAdvice`: three categories have their own protocol of four steps, everything else
   * (no category, the other schema categories, any other text) the general guide of three.
   */
  function GetAdvice(category: Option<string>): (a: Advice)
    ensures category == Some("Domestic Violence") ==> a == Advice("Safety First Protocol", DomesticViolenceSteps)
    ensures category == Some("Sexual Assault") ==> a == Advice("Preservation & Care", SexualAssaultSteps)
    ensures category == Some("Stalking") ==> a == Advice("Anti-Surveillance Steps", StalkingSteps)
    ensures category != Some("Domestic Violence") && category != Some("Sexual Assault") && category != Some("Stalking") ==>
      a == Advice("General Safety Guide", GeneralSteps)
    ensures |a.steps| == (if a.title == "General Safety Guide" then 3 else 4)
  {
    AdviceFor(TopicOf(category))
  }

  /** Over the schema's categories: PHYSICAL ABUSE and OTHER fall to the general guide. */
  lemma AdviceForCategory(c: Category)
    ensures TopicOf(Some(CategoryName(c))) ==
      match c
      case DomesticViolence => DomesticViolenceTopic
      case SexualAssault => SexualAssaultTopic
      case Stalking => StalkingTopic
      case PhysicalAbuse => GeneralTopic
      case Other => GeneralTopic
  {
  }

  /** The list as displayed: each step with its number, 1 to n in list order. */
  function NumberedSteps(a: Advice): (rows: seq<(nat, string)>)
    ensures |rows| == |a.steps|
    ensures forall i :: 0 <= i < |rows| ==> rows[i] == (i + 1, a.steps[i])
  {
    seq(|a.steps|, i requires 0 <= i < |a.steps| => (i + 1, a.steps[i]))
  }
}
