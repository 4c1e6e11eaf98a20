/** The `help` sub-command of reminder/controllers: which help text a token list selects. */
module Help {

  /** The help texts: general usage, the webhook tutorial, the location help and the cron rule help. */
  datatype HelpTopic = Usage | WebhookHelp | LocationHelp | CronRuleHelp

  /**
    help: at most one token gives usage; otherwise the second token alone
    selects the topic through its aliases, and any other word gives usage.
  */
  function SelectHelp(tokens: seq<string>): (t: HelpTopic)
    ensures |tokens| <= 1 ==> t == Usage
    ensures |tokens| > 1 ==> (t == WebhookHelp <==> tokens[1] in {"webhook", "wh"})
    ensures |tokens| > 1 ==> (t == LocationHelp <==> tokens[1] in {"location", "loc", "timezone", "tz"})
    ensures |tokens| > 1 ==> (t == CronRuleHelp <==> tokens[1] in {"cron", "cronrule", "cronexpr"})
    ensures |tokens| > 1 ==>
      (t == Usage <==> tokens[1] !in {"webhook", "wh", "location", "loc", "timezone", "tz", "cron", "cronrule", "cronexpr"})
  {
    if |tokens| <= 1 then Usage
    else
      match tokens[1]
      case "webhook" => WebhookHelp
      case "wh" => WebhookHelp
      case "location" => LocationHelp
      case "loc" => LocationHelp
      case "timezone" => LocationHelp
      case "tz" => LocationHelp
      case "cron" => CronRuleHelp
      case "cronrule" => CronRuleHelp
      case "cronexpr" => CronRuleHelp
      case _ => Usage
  }
}
