/** The keys the services share in the key-value store. */
module StoreKeys {
  import opened Readings

  const RULE_PREFIX := "rule:"
  const CONNECTIVITY_PREFIX := "connectivity:"

  function RuleKey(ruleId: string, deviceId: string): string {
    RULE_PREFIX + ruleId + ":" + deviceId
  }

  function ConnectivityKey(ruleId: string, deviceId: string): string {
    CONNECTIVITY_PREFIX + ruleId + ":" + deviceId
  }

  function ShadowKey(deviceId: string): string {
    "device:" + deviceId + ":last"
  }

  predicate IsRuleKey(key: string) {
    RULE_PREFIX <= key
  }

  predicate IsConnectivityKey(key: string) {
    CONNECTIVITY_PREFIX <= key
  }

  /** Two rule ids whose keys can never be confused: neither is the other, alone or followed by a colon. */
  predicate Separated(r1: string, r2: string) {
    r1 != r2 && !(r1 + ":" <= r2) && !(r2 + ":" <= r1)
  }

  lemma KeySpacesDisjoint(rule: string, d1: string, d2: string, d3: string)
    ensures IsRuleKey(RuleKey(rule, d1)) && !IsConnectivityKey(RuleKey(rule, d1))
    ensures IsConnectivityKey(ConnectivityKey(rule, d2)) && !IsRuleKey(ConnectivityKey(rule, d2))
    ensures !IsRuleKey(ShadowKey(d3)) && !IsConnectivityKey(ShadowKey(d3))
  {
    assert RuleKey(rule, d1)[..|RULE_PREFIX|] == RULE_PREFIX;
    assert ConnectivityKey(rule, d2)[..|CONNECTIVITY_PREFIX|] == CONNECTIVITY_PREFIX;
    assert RuleKey(rule, d1)[0] == 'r' && ConnectivityKey(rule, d2)[0] == 'c' && ShadowKey(d3)[0] == 'd';
    assert RULE_PREFIX[0] == 'r' && CONNECTIVITY_PREFIX[0] == 'c';
  }

  /** What follows a common prefix: two strings `r:d` are equal in exactly three ways. */
  lemma JoinsEqual(r1: string, d1: string, r2: string, d2: string)
    requires |r1| <= |r2|
    ensures r1 + ":" + d1 == r2 + ":" + d2 <==>
              || (r1 == r2 && d1 == d2)
              || (r1 + ":" <= r2 && d1 == r2[|r1| + 1..] + ":" + d2)
  {
    var s1, s2 := r1 + ":" + d1, r2 + ":" + d2;
    if s1 == s2 {
      assert s1[..|r1|] == r1 && s2[..|r1|] == r2[..|r1|];
      if |r1| == |r2| {
        assert s1[|r1| + 1..] == d1 && s2[|r1| + 1..] == d2;
      } else {
        assert s1[|r1|] == ':' && s2[|r1|] == r2[|r1|];
        assert r1 + ":" == r2[..|r1| + 1];
        assert s1[|r1| + 1..] == d1;
        assert s2[|r1| + 1..] == r2[|r1| + 1..] + ":" + d2;
      }
    }
    if r1 + ":" <= r2 && d1 == r2[|r1| + 1..] + ":" + d2 {
      assert r2 == r2[..|r1| + 1] + r2[|r1| + 1..];
    }
  }

  lemma RuleKeysEqual(r1: string, d1: string, r2: string, d2: string)
    ensures RuleKey(r1, d1) == RuleKey(r2, d2) <==> r1 + ":" + d1 == r2 + ":" + d2
    ensures ConnectivityKey(r1, d1) == ConnectivityKey(r2, d2) <==> r1 + ":" + d1 == r2 + ":" + d2
  {
    var s1, s2 := r1 + ":" + d1, r2 + ":" + d2;
    assert RuleKey(r1, d1) == RULE_PREFIX + s1 && RuleKey(r2, d2) == RULE_PREFIX + s2;
    assert RuleKey(r1, d1)[|RULE_PREFIX|..] == s1 && RuleKey(r2, d2)[|RULE_PREFIX|..] == s2;
    assert ConnectivityKey(r1, d1) == CONNECTIVITY_PREFIX + s1 && ConnectivityKey(r2, d2) == CONNECTIVITY_PREFIX + s2;
    assert ConnectivityKey(r1, d1)[|CONNECTIVITY_PREFIX|..] == s1;
    assert ConnectivityKey(r2, d2)[|CONNECTIVITY_PREFIX|..] == s2;
  }

  /** One rule never confuses two devices. */
  lemma OneRuleKeysInjective(rule: string, d1: string, d2: string)
    ensures RuleKey(rule, d1) == RuleKey(rule, d2) <==> d1 == d2
    ensures ConnectivityKey(rule, d1) == ConnectivityKey(rule, d2) <==> d1 == d2
  {
    RuleKeysEqual(rule, d1, rule, d2);
    JoinsEqual(rule, d1, rule, d2);
  }

  lemma SeparatedKeysDiffer(r1: string, d1: string, r2: string, d2: string)
    requires Separated(r1, r2)
    ensures RuleKey(r1, d1) != RuleKey(r2, d2)
    ensures ConnectivityKey(r1, d1) != ConnectivityKey(r2, d2)
  {
    RuleKeysEqual(r1, d1, r2, d2);
    if |r1| <= |r2| {
      JoinsEqual(r1, d1, r2, d2);
    } else {
      JoinsEqual(r2, d2, r1, d1);
    }
  }

  /** Exactly when two rules have no pair of devices with one key between them. */
  lemma SeparatedIffNoCollision(r1: string, r2: string)
    ensures Separated(r1, r2) <==> forall d1, d2 :: RuleKey(r1, d1) != RuleKey(r2, d2)
  {
    if Separated(r1, r2) {
      forall d1, d2 ensures RuleKey(r1, d1) != RuleKey(r2, d2) {
        SeparatedKeysDiffer(r1, d1, r2, d2);
      }
    } else if r1 == r2 {
      assert RuleKey(r1, "d") == RuleKey(r2, "d");
    } else if r1 + ":" <= r2 {
      var d := r2[|r1| + 1..] + ":" + "d";
      JoinsEqual(r1, d, r2, "d");
      RuleKeysEqual(r1, d, r2, "d");
    } else {
      var d := r1[|r2| + 1..] + ":" + "d";
      JoinsEqual(r2, d, r1, "d");
      RuleKeysEqual(r2, d, r1, "d");
    }
  }

  lemma PrefixHasColon(r1: string, r2: string)
    requires r1 + ":" <= r2
    ensures ':' in r2
  {
    assert r2[|r1|] == (r1 + ":")[|r1|];
  }

  /** Distinct ids without a colon are always separated. */
  lemma ColonFreeSeparated(r1: string, r2: string)
    requires r1 != r2 && ':' !in r1 && ':' !in r2
    ensures Separated(r1, r2)
  {
    if r1 + ":" <= r2 {
      PrefixHasColon(r1, r2);
    }
    if r2 + ":" <= r1 {
      PrefixHasColon(r2, r1);
    }
  }

  /** The rest of a rule id, if a device id can hold it and still a colon and one more character. */
  predicate Fits(rest: string) {
    '/' !in rest && |rest| <= MAX_DEVICE_ID_LENGTH - 2
  }

  predicate ExtendsWithin(r1: string, r2: string) {
    r1 + ":" <= r2 && Fits(r2[|r1| + 1..])
  }

  /** Two rule ids whose keys are never confused on the device ids the pipeline admits. */
  predicate Apart(r1: string, r2: string) {
    r1 != r2 && !ExtendsWithin(r1, r2) && !ExtendsWithin(r2, r1)
  }

  lemma CollisionExtends(r1: string, d1: string, r2: string, d2: string)
    requires |r1| <= |r2| && RuleKey(r1, d1) == RuleKey(r2, d2) && AdmissibleId(d1) && AdmissibleId(d2)
    ensures r1 == r2 || ExtendsWithin(r1, r2)
  {
    RuleKeysEqual(r1, d1, r2, d2);
    JoinsEqual(r1, d1, r2, d2);
    if r1 != r2 {
      var rest := r2[|r1| + 1..];
      forall c | c in rest ensures c in d1 {
        var i :| 0 <= i < |rest| && rest[i] == c;
        assert d1[i] == c;
      }
    }
  }

  lemma ApartKeysDiffer(r1: string, d1: string, r2: string, d2: string)
    requires Apart(r1, r2) && AdmissibleId(d1) && AdmissibleId(d2)
    ensures RuleKey(r1, d1) != RuleKey(r2, d2)
  {
    hide RuleKey, ExtendsWithin;
    if RuleKey(r1, d1) == RuleKey(r2, d2) {
      if |r1| <= |r2| {
        CollisionExtends(r1, d1, r2, d2);
      } else {
        CollisionExtends(r2, d2, r1, d1);
      }
    }
  }

  lemma ExtensionCollides(r1: string, r2: string) returns (d1: string, d2: string)
    requires ExtendsWithin(r1, r2)
    ensures AdmissibleId(d1) && AdmissibleId(d2) && RuleKey(r1, d1) == RuleKey(r2, d2)
  {
    d2 := "d";
    d1 := r2[|r1| + 1..] + ":" + d2;
    assert d2[0] == 'd';
    JoinsEqual(r1, d1, r2, d2);
    RuleKeysEqual(r1, d1, r2, d2);
  }

  lemma AdmissibleCollision(r1: string, r2: string) returns (d1: string, d2: string)
    requires !Apart(r1, r2)
    ensures AdmissibleId(d1) && AdmissibleId(d2) && RuleKey(r1, d1) == RuleKey(r2, d2)
  {
    hide RuleKey, ExtendsWithin;
    if r1 == r2 {
      d1, d2 := "d", "d";
      assert d1[0] == 'd';
    } else if ExtendsWithin(r1, r2) {
      d1, d2 := ExtensionCollides(r1, r2);
    } else {
      d2, d1 := ExtensionCollides(r2, r1);
    }
  }

  /** Exactly when two rules have no pair of admissible devices with one key between them. */
  lemma ApartIffNoCollision(r1: string, r2: string)
    ensures Apart(r1, r2) <==>
              forall d1, d2 | AdmissibleId(d1) && AdmissibleId(d2) :: RuleKey(r1, d1) != RuleKey(r2, d2)
  {
    hide RuleKey, Apart, AdmissibleId;
    if Apart(r1, r2) {
      forall d1, d2 | AdmissibleId(d1) && AdmissibleId(d2) ensures RuleKey(r1, d1) != RuleKey(r2, d2) {
        ApartKeysDiffer(r1, d1, r2, d2);
      }
    } else {
      var d1, d2 := AdmissibleCollision(r1, r2);
    }
  }
}
