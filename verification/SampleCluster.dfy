/**
 The resource IDs of the cluster in the counterexamples.  The runs are about any
 cluster whose IDs the service accepts; the witness is one that a request can carry.
 */
module SampleCluster {
  import opened Documents
  import opened Paths
  import opened Protocol

  /** The identity of a cluster and its resource group, as Create and the validator accept them. */
  type Sample = x: (Identity, string) | ValidIdentity(x.0, x.1)
    witness (IsValid(); (SAMPLE_IDENTITY, SAMPLE_GROUP))

  const SAMPLE: Sample
  const IDENTITY := SAMPLE.0
  const KEY := IDENTITY.key
  const RESOURCE_GROUP := SAMPLE.1

  // ---- the witness ----

  const SUBSCRIPTION := "11111111-2222-3333-4444-555555555555"
  const KEY_GROUP := "resourcegroups/rg/providers/"
  const KEY_PROVIDER := "microsoft.redhatopenshift/"
  const KEY_NAME := "openshiftclusters/c"
  const SAMPLE_KEY := "/subscriptions/" + SUBSCRIPTION + "/" + (KEY_GROUP + KEY_PROVIDER + KEY_NAME)
  const SAMPLE_GROUP := "/subscriptions/" + SUBSCRIPTION + "/" + "resourceGroups/nodes"
  const SAMPLE_IDENTITY := Identity(SAMPLE_KEY, SUBSCRIPTION, ToLower(SAMPLE_GROUP))

  predicate Low(s: string) {
    forall c :: c in s ==> LowerChar(c) == c
  }

  lemma LowIsLower(s: string)
    requires Low(s)
    ensures IsLower(s)
  {
    assert forall i :: 0 <= i < |s| ==> s[i] in s;
  }

  lemma {:induction false} HeadOf(a: string, b: string)
    requires '/' !in a
    ensures Head(a + "/" + b) == a && Rest(a + "/" + b) == b
  {
    var s := a + "/" + b;
    if a == "" {
      assert s[1..] == b;
    } else {
      HeadOf(a[1..], b);
      assert s[1..] == a[1..] + "/" + b;
    }
  }

  lemma ThirdSegment(sub: string, rest: string)
    requires '/' !in sub
    ensures Subscription("/subscriptions/" + sub + "/" + rest) == sub
  {
    var tail := sub + "/" + rest;
    assert "/subscriptions/" + sub + "/" + rest == "" + "/" + ("subscriptions" + "/" + tail);
    HeadOf("", "subscriptions" + "/" + tail);
    HeadOf("subscriptions", tail);
    HeadOf(sub, rest);
    var s := "" + "/" + ("subscriptions" + "/" + tail);
    assert Segment(s, 2) == Segment(Rest(s), 1) == Segment(Rest(Rest(s)), 0);
  }

  lemma LowAppend(a: string, b: string)
    requires Low(a) && Low(b)
    ensures Low(a + b)
  {}

  lemma SubscriptionIsLow()
    ensures Low(SUBSCRIPTION) && '/' !in SUBSCRIPTION
  {}

  lemma GroupIsLow()
    ensures Low(KEY_GROUP)
  {}

  lemma ProviderIsLow()
    ensures Low(KEY_PROVIDER)
  {}

  lemma NameIsLow()
    ensures Low(KEY_NAME)
  {}

  lemma PrefixIsLow()
    ensures Low("/subscriptions/") && Low("/")
  {}

  lemma KeyIsLow()
    ensures Low(SAMPLE_KEY)
  {
    hide *;
    SubscriptionIsLow();
    GroupIsLow();
    ProviderIsLow();
    NameIsLow();
    PrefixIsLow();
    var prefix := "/subscriptions/";
    LowAppend(prefix, SUBSCRIPTION);
    LowAppend(prefix + SUBSCRIPTION, "/");
    LowAppend(KEY_GROUP, KEY_PROVIDER);
    LowAppend(KEY_GROUP + KEY_PROVIDER, KEY_NAME);
    LowAppend(prefix + SUBSCRIPTION + "/", KEY_GROUP + KEY_PROVIDER + KEY_NAME);
    KeyParts();
  }

  lemma KeyParts()
    ensures SAMPLE_KEY == "/subscriptions/" + SUBSCRIPTION + "/" + (KEY_GROUP + KEY_PROVIDER + KEY_NAME)
    ensures SAMPLE_GROUP == "/subscriptions/" + SUBSCRIPTION + "/" + "resourceGroups/nodes"
    ensures SAMPLE_IDENTITY == Identity(SAMPLE_KEY, SUBSCRIPTION, ToLower(SAMPLE_GROUP))
  {}

  lemma IsValid()
    ensures ValidIdentity(SAMPLE_IDENTITY, SAMPLE_GROUP)
  {
    hide SAMPLE_KEY, SAMPLE_GROUP, SUBSCRIPTION, SAMPLE_IDENTITY, Low, ToLower, Subscription;
    KeyParts();
    KeyIsLow();
    LowIsLower(SAMPLE_KEY);
    SubscriptionIsLow();
    ThirdSegment(SUBSCRIPTION, KEY_GROUP + KEY_PROVIDER + KEY_NAME);
    ThirdSegment(SUBSCRIPTION, "resourceGroups/nodes");
  }
}
