/** How the three hooks look side by side to the broker that registers them:
    the event tags they claim. */
module Registry {
  import opened Hooks
  import HttpAuthHook
  import PubsubHook
  import SecretManagerAuthHook

  /** The two decision hooks claim exactly the same event tags. */
  lemma DecisionHooksShareCapabilities(b: Hook)
    ensures HttpAuthHook.Provides(b) == SecretManagerAuthHook.Provides(b)
  {
  }

  /** No event tag is claimed by both a decision hook and the fan-out hook,
      and none of them claims client expiry. */
  lemma DecisionAndFanOutDisjoint(b: Hook)
    ensures !(HttpAuthHook.Provides(b) && PubsubHook.Provides(b))
    ensures !HttpAuthHook.Provides(Hook.OnClientExpired)
    ensures !PubsubHook.Provides(Hook.OnClientExpired)
    ensures !SecretManagerAuthHook.Provides(Hook.OnClientExpired)
  {
  }
}
