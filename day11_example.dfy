/** The four-monkey example of day 11, followed through the model's
    specification one turn at a time: 20 rounds of part 1 (dividing by three)
    give the answer 10605, and the first round of part 2 (reducing modulo
    23 * 19 * 13 * 17 = 96577) gives the inspection counts 2, 4, 3 and 6. */
module Day11Example {
  import opened Common
  import opened Day11

  /** The example's monkeys, as the parser reads them. */
  function ExampleMonkeys(): seq<Description>
  {
    [Description(Rule(Mul(19), 23, 2, 3), [79, 98]),
     Description(Rule(Add(6), 19, 2, 0), [54, 65, 75, 74]),
     Description(Rule(Square, 13, 1, 3), [79, 60, 97]),
     Description(Rule(Add(3), 17, 0, 1), [74])]
  }

  function ExampleRules(): seq<Rule>
  {
    [Rule(Mul(19), 23, 2, 3), Rule(Add(6), 19, 2, 0), Rule(Square, 13, 1, 3), Rule(Add(3), 17, 0, 1)]
  }

  function ExampleStart(): seq<MonkeyState>
  {
    [MonkeyState([79, 98], 0), MonkeyState([54, 65, 75, 74], 0), MonkeyState([79, 60, 97], 0), MonkeyState([74], 0)]
  }

  /** Each example block, written the way the puzzle writes it, parses to
      its monkey. */
  lemma ExampleBlocksParse(k: nat)
    requires k < 4
    ensures ParseMonkey(ShowMonkey(k, ExampleMonkeys()[k])) == Some(ExampleMonkeys()[k])
  {
    ParseShowMonkey(k, ExampleMonkeys()[k]);
  }

  /** The parsed monkeys give the rules and the starting state used below. */
  lemma ExampleParsedStart()
    ensures RulesOf(ExampleMonkeys()) == ExampleRules() && StartOf(ExampleMonkeys()) == ExampleStart()
  {
  }

  /** `after` is `before` with `t` delivered, stated monkey by monkey. */
  predicate DeliveredStep(before: seq<MonkeyState>, t: Throw, after: seq<MonkeyState>)
  {
    |after| == |before| && t.dest < |before| &&
    after[t.dest].items == before[t.dest].items + [t.value] && after[t.dest].count == before[t.dest].count &&
    forall k :: 0 <= k < |before| && k != t.dest ==> after[k] == before[k]
  }

  lemma DeliveredStepIs(before: seq<MonkeyState>, t: Throw, after: seq<MonkeyState>)
    requires DeliveredStep(before, t, after)
    ensures after == Deliver(before, t)
  {
    assert after[t.dest] == Received(before[t.dest], t.value);
  }

  /** Throws delivered one at a time, each intermediate state known. */
  lemma {:induction false} DeliverChain(ms: seq<MonkeyState>, ts: seq<Throw>, chain: seq<seq<MonkeyState>>)
    requires |chain| == |ts| + 1 && chain[0] == ms
    requires forall j :: 0 <= j < |ts| ==> DeliveredStep(chain[j], ts[j], chain[j + 1])
    ensures Lands(ms, ts) && DeliverAll(ms, ts) == chain[|ts|]
  {
    if ts != [] {
      var n := |ts|;
      DeliverChain(ms, ts[..n - 1], chain[..n]);
      ChainLength(ms, ts, chain, n - 1);
      DeliveredStepIs(chain[n - 1], ts[n - 1], chain[n]);
      forall j | 0 <= j < n
        ensures ts[j].dest < |ms|
      {
        ChainLength(ms, ts, chain, j);
      }
    }
  }

  lemma {:induction false} ChainLength(ms: seq<MonkeyState>, ts: seq<Throw>, chain: seq<seq<MonkeyState>>, j: nat)
    requires |chain| == |ts| + 1 && chain[0] == ms && j <= |ts|
    requires forall j :: 0 <= j < |ts| ==> DeliveredStep(chain[j], ts[j], chain[j + 1])
    ensures |chain[j]| == |ms|
  {
    if j > 0 {
      ChainLength(ms, ts, chain, j - 1);
    }
  }

  /** A round whose four turns are known. */
  lemma RoundBy(rules: seq<Rule>, ms: seq<MonkeyState>, relief: Relief, s1: seq<MonkeyState>, s2: seq<MonkeyState>, s3: seq<MonkeyState>, s4: seq<MonkeyState>)
    requires Fits(rules, ms) && |ms| == 4 && ValidRelief(relief)
    requires Turn(rules, ms, 0, relief) == s1
    requires Fits(rules, s1) && Turn(rules, s1, 1, relief) == s2
    requires Fits(rules, s2) && Turn(rules, s2, 2, relief) == s3
    requires Fits(rules, s3) && Turn(rules, s3, 3, relief) == s4
    ensures Round(rules, ms, relief) == s4
  {
    assert Turns(rules, ms, 1, relief) == s1;
    assert Turns(rules, ms, 2, relief) == s2;
    assert Turns(rules, ms, 3, relief) == s3;
  }


  lemma ThirdThrows1_0()
    ensures InspectAll(Rule(Mul(19), 23, 2, 3), [79, 98], Third)
      == [Throw(500, 3), Throw(620, 3)]
  {
  }

  lemma ThirdDeliveries1_0()
    ensures Lands([MonkeyState([79, 98], 0), MonkeyState([54, 65, 75, 74], 0), MonkeyState([79, 60, 97], 0), MonkeyState([74], 0)], [Throw(500, 3), Throw(620, 3)])
    ensures DeliverAll([MonkeyState([79, 98], 0), MonkeyState([54, 65, 75, 74], 0), MonkeyState([79, 60, 97], 0), MonkeyState([74], 0)], [Throw(500, 3), Throw(620, 3)])
      == [MonkeyState([79, 98], 0), MonkeyState([54, 65, 75, 74], 0), MonkeyState([79, 60, 97], 0), MonkeyState([74, 500, 620], 0)]
  {
    DeliverChain([MonkeyState([79, 98], 0), MonkeyState([54, 65, 75, 74], 0), MonkeyState([79, 60, 97], 0), MonkeyState([74], 0)], [Throw(500, 3), Throw(620, 3)],
      [[MonkeyState([79, 98], 0), MonkeyState([54, 65, 75, 74], 0), MonkeyState([79, 60, 97], 0), MonkeyState([74], 0)],
       [MonkeyState([79, 98], 0), MonkeyState([54, 65, 75, 74], 0), MonkeyState([79, 60, 97], 0), MonkeyState([74, 500], 0)],
       [MonkeyState([79, 98], 0), MonkeyState([54, 65, 75, 74], 0), MonkeyState([79, 60, 97], 0), MonkeyState([74, 500, 620], 0)]]);
  }

  lemma ThirdTurn1_0()
    ensures Turn(ExampleRules(), [MonkeyState([79, 98], 0), MonkeyState([54, 65, 75, 74], 0), MonkeyState([79, 60, 97], 0), MonkeyState([74], 0)], 0, Third)
      == [MonkeyState([], 2), MonkeyState([54, 65, 75, 74], 0), MonkeyState([79, 60, 97], 0), MonkeyState([74, 500, 620], 0)]
  {
    ThirdThrows1_0();
    ThirdDeliveries1_0();
  }

  lemma ThirdThrows1_1()
    ensures InspectAll(Rule(Add(6), 19, 2, 0), [54, 65, 75, 74], Third)
      == [Throw(20, 0), Throw(23, 0), Throw(27, 0), Throw(26, 0)]
  {
  }

  lemma ThirdDeliveries1_1()
    ensures Lands([MonkeyState([], 2), MonkeyState([54, 65, 75, 74], 0), MonkeyState([79, 60, 97], 0), MonkeyState([74, 500, 620], 0)], [Throw(20, 0), Throw(23, 0), Throw(27, 0), Throw(26, 0)])
    ensures DeliverAll([MonkeyState([], 2), MonkeyState([54, 65, 75, 74], 0), MonkeyState([79, 60, 97], 0), MonkeyState([74, 500, 620], 0)], [Throw(20, 0), Throw(23, 0), Throw(27, 0), Throw(26, 0)])
      == [MonkeyState([20, 23, 27, 26], 2), MonkeyState([54, 65, 75, 74], 0), MonkeyState([79, 60, 97], 0), MonkeyState([74, 500, 620], 0)]
  {
    DeliverChain([MonkeyState([], 2), MonkeyState([54, 65, 75, 74], 0), MonkeyState([79, 60, 97], 0), MonkeyState([74, 500, 620], 0)], [Throw(20, 0), Throw(23, 0), Throw(27, 0), Throw(26, 0)],
      [[MonkeyState([], 2), MonkeyState([54, 65, 75, 74], 0), MonkeyState([79, 60, 97], 0), MonkeyState([74, 500, 620], 0)],
       [MonkeyState([20], 2), MonkeyState([54, 65, 75, 74], 0), MonkeyState([79, 60, 97], 0), MonkeyState([74, 500, 620], 0)],
       [MonkeyState([20, 23], 2), MonkeyState([54, 65, 75, 74], 0), MonkeyState([79, 60, 97], 0), MonkeyState([74, 500, 620], 0)],
       [MonkeyState([20, 23, 27], 2), MonkeyState([54, 65, 75, 74], 0), MonkeyState([79, 60, 97], 0), MonkeyState([74, 500, 620], 0)],
       [MonkeyState([20, 23, 27, 26], 2), MonkeyState([54, 65, 75, 74], 0), MonkeyState([79, 60, 97], 0), MonkeyState([74, 500, 620], 0)]]);
  }

  lemma ThirdTurn1_1()
    ensures Turn(ExampleRules(), [MonkeyState([], 2), MonkeyState([54, 65, 75, 74], 0), MonkeyState([79, 60, 97], 0), MonkeyState([74, 500, 620], 0)], 1, Third)
      == [MonkeyState([20, 23, 27, 26], 2), MonkeyState([], 4), MonkeyState([79, 60, 97], 0), MonkeyState([74, 500, 620], 0)]
  {
    ThirdThrows1_1();
    ThirdDeliveries1_1();
  }

  lemma ThirdThrows1_2()
    ensures InspectAll(Rule(Square, 13, 1, 3), [79, 60, 97], Third)
      == [Throw(2080, 1), Throw(1200, 3), Throw(3136, 3)]
  {
  }

  lemma ThirdDeliveries1_2()
    ensures Lands([MonkeyState([20, 23, 27, 26], 2), MonkeyState([], 4), MonkeyState([79, 60, 97], 0), MonkeyState([74, 500, 620], 0)], [Throw(2080, 1), Throw(1200, 3), Throw(3136, 3)])
    ensures DeliverAll([MonkeyState([20, 23, 27, 26], 2), MonkeyState([], 4), MonkeyState([79, 60, 97], 0), MonkeyState([74, 500, 620], 0)], [Throw(2080, 1), Throw(1200, 3), Throw(3136, 3)])
      == [MonkeyState([20, 23, 27, 26], 2), MonkeyState([2080], 4), MonkeyState([79, 60, 97], 0), MonkeyState([74, 500, 620, 1200, 3136], 0)]
  {
    DeliverChain([MonkeyState([20, 23, 27, 26], 2), MonkeyState([], 4), MonkeyState([79, 60, 97], 0), MonkeyState([74, 500, 620], 0)], [Throw(2080, 1), Throw(1200, 3), Throw(3136, 3)],
      [[MonkeyState([20, 23, 27, 26], 2), MonkeyState([], 4), MonkeyState([79, 60, 97], 0), MonkeyState([74, 500, 620], 0)],
       [MonkeyState([20, 23, 27, 26], 2), MonkeyState([2080], 4), MonkeyState([79, 60, 97], 0), MonkeyState([74, 500, 620], 0)],
       [MonkeyState([20, 23, 27, 26], 2), MonkeyState([2080], 4), MonkeyState([79, 60, 97], 0), MonkeyState([74, 500, 620, 1200], 0)],
       [MonkeyState([20, 23, 27, 26], 2), MonkeyState([2080], 4), MonkeyState([79, 60, 97], 0), MonkeyState([74, 500, 620, 1200, 3136], 0)]]);
  }

  lemma ThirdTurn1_2()
    ensures Turn(ExampleRules(), [MonkeyState([20, 23, 27, 26], 2), MonkeyState([], 4), MonkeyState([79, 60, 97], 0), MonkeyState([74, 500, 620], 0)], 2, Third)
      == [MonkeyState([20, 23, 27, 26], 2), MonkeyState([2080], 4), MonkeyState([], 3), MonkeyState([74, 500, 620, 1200, 3136], 0)]
  {
    ThirdThrows1_2();
    ThirdDeliveries1_2();
  }

  lemma ThirdThrows1_3()
    ensures InspectAll(Rule(Add(3), 17, 0, 1), [74, 500, 620, 1200, 3136], Third)
      == [Throw(25, 1), Throw(167, 1), Throw(207, 1), Throw(401, 1), Throw(1046, 1)]
  {
  }

  lemma ThirdDeliveries1_3()
    ensures Lands([MonkeyState([20, 23, 27, 26], 2), MonkeyState([2080], 4), MonkeyState([], 3), MonkeyState([74, 500, 620, 1200, 3136], 0)], [Throw(25, 1), Throw(167, 1), Throw(207, 1), Throw(401, 1), Throw(1046, 1)])
    ensures DeliverAll([MonkeyState([20, 23, 27, 26], 2), MonkeyState([2080], 4), MonkeyState([], 3), MonkeyState([74, 500, 620, 1200, 3136], 0)], [Throw(25, 1), Throw(167, 1), Throw(207, 1), Throw(401, 1), Throw(1046, 1)])
      == [MonkeyState([20, 23, 27, 26], 2), MonkeyState([2080, 25, 167, 207, 401, 1046], 4), MonkeyState([], 3), MonkeyState([74, 500, 620, 1200, 3136], 0)]
  {
    DeliverChain([MonkeyState([20, 23, 27, 26], 2), MonkeyState([2080], 4), MonkeyState([], 3), MonkeyState([74, 500, 620, 1200, 3136], 0)], [Throw(25, 1), Throw(167, 1), Throw(207, 1), Throw(401, 1), Throw(1046, 1)],
      [[MonkeyState([20, 23, 27, 26], 2), MonkeyState([2080], 4), MonkeyState([], 3), MonkeyState([74, 500, 620, 1200, 3136], 0)],
       [MonkeyState([20, 23, 27, 26], 2), MonkeyState([2080, 25], 4), MonkeyState([], 3), MonkeyState([74, 500, 620, 1200, 3136], 0)],
       [MonkeyState([20, 23, 27, 26], 2), MonkeyState([2080, 25, 167], 4), MonkeyState([], 3), MonkeyState([74, 500, 620, 1200, 3136], 0)],
       [MonkeyState([20, 23, 27, 26], 2), MonkeyState([2080, 25, 167, 207], 4), MonkeyState([], 3), MonkeyState([74, 500, 620, 1200, 3136], 0)],
       [MonkeyState([20, 23, 27, 26], 2), MonkeyState([2080, 25, 167, 207, 401], 4), MonkeyState([], 3), MonkeyState([74, 500, 620, 1200, 3136], 0)],
       [MonkeyState([20, 23, 27, 26], 2), MonkeyState([2080, 25, 167, 207, 401, 1046], 4), MonkeyState([], 3), MonkeyState([74, 500, 620, 1200, 3136], 0)]]);
  }

  lemma ThirdTurn1_3()
    ensures Turn(ExampleRules(), [MonkeyState([20, 23, 27, 26], 2), MonkeyState([2080], 4), MonkeyState([], 3), MonkeyState([74, 500, 620, 1200, 3136], 0)], 3, Third)
      == [MonkeyState([20, 23, 27, 26], 2), MonkeyState([2080, 25, 167, 207, 401, 1046], 4), MonkeyState([], 3), MonkeyState([], 5)]
  {
    ThirdThrows1_3();
    ThirdDeliveries1_3();
  }

  lemma ThirdRound1(ms: seq<MonkeyState>)
    requires ms == [MonkeyState([79, 98], 0), MonkeyState([54, 65, 75, 74], 0), MonkeyState([79, 60, 97], 0), MonkeyState([74], 0)]
    ensures Round(ExampleRules(), ms, Third)
      == [MonkeyState([20, 23, 27, 26], 2), MonkeyState([2080, 25, 167, 207, 401, 1046], 4), MonkeyState([], 3), MonkeyState([], 5)]
  {
    ThirdTurn1_0(); ThirdTurn1_1(); ThirdTurn1_2(); ThirdTurn1_3();
    RoundBy(ExampleRules(), ms, Third,
      [MonkeyState([], 2), MonkeyState([54, 65, 75, 74], 0), MonkeyState([79, 60, 97], 0), MonkeyState([74, 500, 620], 0)],
      [MonkeyState([20, 23, 27, 26], 2), MonkeyState([], 4), MonkeyState([79, 60, 97], 0), MonkeyState([74, 500, 620], 0)],
      [MonkeyState([20, 23, 27, 26], 2), MonkeyState([2080], 4), MonkeyState([], 3), MonkeyState([74, 500, 620, 1200, 3136], 0)],
      [MonkeyState([20, 23, 27, 26], 2), MonkeyState([2080, 25, 167, 207, 401, 1046], 4), MonkeyState([], 3), MonkeyState([], 5)]);
  }

  lemma ThirdThrows2_0()
    ensures InspectAll(Rule(Mul(19), 23, 2, 3), [20, 23, 27, 26], Third)
      == [Throw(126, 3), Throw(145, 3), Throw(171, 3), Throw(164, 3)]
  {
  }

  lemma ThirdDeliveries2_0()
    ensures Lands([MonkeyState([20, 23, 27, 26], 2), MonkeyState([2080, 25, 167, 207, 401, 1046], 4), MonkeyState([], 3), MonkeyState([], 5)], [Throw(126, 3), Throw(145, 3), Throw(171, 3), Throw(164, 3)])
    ensures DeliverAll([MonkeyState([20, 23, 27, 26], 2), MonkeyState([2080, 25, 167, 207, 401, 1046], 4), MonkeyState([], 3), MonkeyState([], 5)], [Throw(126, 3), Throw(145, 3), Throw(171, 3), Throw(164, 3)])
      == [MonkeyState([20, 23, 27, 26], 2), MonkeyState([2080, 25, 167, 207, 401, 1046], 4), MonkeyState([], 3), MonkeyState([126, 145, 171, 164], 5)]
  {
    DeliverChain([MonkeyState([20, 23, 27, 26], 2), MonkeyState([2080, 25, 167, 207, 401, 1046], 4), MonkeyState([], 3), MonkeyState([], 5)], [Throw(126, 3), Throw(145, 3), Throw(171, 3), Throw(164, 3)],
      [[MonkeyState([20, 23, 27, 26], 2), MonkeyState([2080, 25, 167, 207, 401, 1046], 4), MonkeyState([], 3), MonkeyState([], 5)],
       [MonkeyState([20, 23, 27, 26], 2), MonkeyState([2080, 25, 167, 207, 401, 1046], 4), MonkeyState([], 3), MonkeyState([126], 5)],
       [MonkeyState([20, 23, 27, 26], 2), MonkeyState([2080, 25, 167, 207, 401, 1046], 4), MonkeyState([], 3), MonkeyState([126, 145], 5)],
       [MonkeyState([20, 23, 27, 26], 2), MonkeyState([2080, 25, 167, 207, 401, 1046], 4), MonkeyState([], 3), MonkeyState([126, 145, 171], 5)],
       [MonkeyState([20, 23, 27, 26], 2), MonkeyState([2080, 25, 167, 207, 401, 1046], 4), MonkeyState([], 3), MonkeyState([126, 145, 171, 164], 5)]]);
  }

  lemma ThirdTurn2_0()
    ensures Turn(ExampleRules(), [MonkeyState([20, 23, 27, 26], 2), MonkeyState([2080, 25, 167, 207, 401, 1046], 4), MonkeyState([], 3), MonkeyState([], 5)], 0, Third)
      == [MonkeyState([], 6), MonkeyState([2080, 25, 167, 207, 401, 1046], 4), MonkeyState([], 3), MonkeyState([126, 145, 171, 164], 5)]
  {
    ThirdThrows2_0();
    ThirdDeliveries2_0();
  }

  lemma ThirdThrows2_1()
    ensures InspectAll(Rule(Add(6), 19, 2, 0), [2080, 25, 167, 207, 401, 1046], Third)
      == [Throw(695, 0), Throw(10, 0), Throw(57, 2), Throw(71, 0), Throw(135, 0), Throw(350, 0)]
  {
  }

  lemma ThirdDeliveries2_1()
    ensures Lands([MonkeyState([], 6), MonkeyState([2080, 25, 167, 207, 401, 1046], 4), MonkeyState([], 3), MonkeyState([126, 145, 171, 164], 5)], [Throw(695, 0), Throw(10, 0), Throw(57, 2), Throw(71, 0), Throw(135, 0), Throw(350, 0)])
    ensures DeliverAll([MonkeyState([], 6), MonkeyState([2080, 25, 167, 207, 401, 1046], 4), MonkeyState([], 3), MonkeyState([126, 145, 171, 164], 5)], [Throw(695, 0), Throw(10, 0), Throw(57, 2), Throw(71, 0), Throw(135, 0), Throw(350, 0)])
      == [MonkeyState([695, 10, 71, 135, 350], 6), MonkeyState([2080, 25, 167, 207, 401, 1046], 4), MonkeyState([57], 3), MonkeyState([126, 145, 171, 164], 5)]
  {
    DeliverChain([MonkeyState([], 6), MonkeyState([2080, 25, 167, 207, 401, 1046], 4), MonkeyState([], 3), MonkeyState([126, 145, 171, 164], 5)], [Throw(695, 0), Throw(10, 0), Throw(57, 2), Throw(71, 0), Throw(135, 0), Throw(350, 0)],
      [[MonkeyState([], 6), MonkeyState([2080, 25, 167, 207, 401, 1046], 4), MonkeyState([], 3), MonkeyState([126, 145, 171, 164], 5)],
       [MonkeyState([695], 6), MonkeyState([2080, 25, 167, 207, 401, 1046], 4), MonkeyState([], 3), MonkeyState([126, 145, 171, 164], 5)],
       [MonkeyState([695, 10], 6), MonkeyState([2080, 25, 167, 207, 401, 1046], 4), MonkeyState([], 3), MonkeyState([126, 145, 171, 164], 5)],
       [MonkeyState([695, 10], 6), MonkeyState([2080, 25, 167, 207, 401, 1046], 4), MonkeyState([57], 3), MonkeyState([126, 145, 171, 164], 5)],
       [MonkeyState([695, 10, 71], 6), MonkeyState([2080, 25, 167, 207, 401, 1046], 4), MonkeyState([57], 3), MonkeyState([126, 145, 171, 164], 5)],
       [MonkeyState([695, 10, 71, 135], 6), MonkeyState([2080, 25, 167, 207, 401, 1046], 4), MonkeyState([57], 3), MonkeyState([126, 145, 171, 164], 5)],
       [MonkeyState([695, 10, 71, 135, 350], 6), MonkeyState([2080, 25, 167, 207, 401, 1046], 4), MonkeyState([57], 3), MonkeyState([126, 145, 171, 164], 5)]]);
  }

  lemma ThirdTurn2_1()
    ensures Turn(ExampleRules(), [MonkeyState([], 6), MonkeyState([2080, 25, 167, 207, 401, 1046], 4), MonkeyState([], 3), MonkeyState([126, 145, 171, 164], 5)], 1, Third)
      == [MonkeyState([695, 10, 71, 135, 350], 6), MonkeyState([], 10), MonkeyState([57], 3), MonkeyState([126, 145, 171, 164], 5)]
  {
    ThirdThrows2_1();
    ThirdDeliveries2_1();
  }

  lemma ThirdThrows2_2()
    ensures InspectAll(Rule(Square, 13, 1, 3), [57], Third)
      == [Throw(1083, 3)]
  {
  }

  lemma ThirdDeliveries2_2()
    ensures Lands([MonkeyState([695, 10, 71, 135, 350], 6), MonkeyState([], 10), MonkeyState([57], 3), MonkeyState([126, 145, 171, 164], 5)], [Throw(1083, 3)])
    ensures DeliverAll([MonkeyState([695, 10, 71, 135, 350], 6), MonkeyState([], 10), MonkeyState([57], 3), MonkeyState([126, 145, 171, 164], 5)], [Throw(1083, 3)])
      == [MonkeyState([695, 10, 71, 135, 350], 6), MonkeyState([], 10), MonkeyState([57], 3), MonkeyState([126, 145, 171, 164, 1083], 5)]
  {
    DeliverChain([MonkeyState([695, 10, 71, 135, 350], 6), MonkeyState([], 10), MonkeyState([57], 3), MonkeyState([126, 145, 171, 164], 5)], [Throw(1083, 3)],
      [[MonkeyState([695, 10, 71, 135, 350], 6), MonkeyState([], 10), MonkeyState([57], 3), MonkeyState([126, 145, 171, 164], 5)],
       [MonkeyState([695, 10, 71, 135, 350], 6), MonkeyState([], 10), MonkeyState([57], 3), MonkeyState([126, 145, 171, 164, 1083], 5)]]);
  }

  lemma ThirdTurn2_2()
    ensures Turn(ExampleRules(), [MonkeyState([695, 10, 71, 135, 350], 6), MonkeyState([], 10), MonkeyState([57], 3), MonkeyState([126, 145, 171, 164], 5)], 2, Third)
      == [MonkeyState([695, 10, 71, 135, 350], 6), MonkeyState([], 10), MonkeyState([], 4), MonkeyState([126, 145, 171, 164, 1083], 5)]
  {
    ThirdThrows2_2();
    ThirdDeliveries2_2();
  }

  lemma ThirdThrows2_3()
    ensures InspectAll(Rule(Add(3), 17, 0, 1), [126, 145, 171, 164, 1083], Third)
      == [Throw(43, 1), Throw(49, 1), Throw(58, 1), Throw(55, 1), Throw(362, 1)]
  {
  }

  lemma ThirdDeliveries2_3()
    ensures Lands([MonkeyState([695, 10, 71, 135, 350], 6), MonkeyState([], 10), MonkeyState([], 4), MonkeyState([126, 145, 171, 164, 1083], 5)], [Throw(43, 1), Throw(49, 1), Throw(58, 1), Throw(55, 1), Throw(362, 1)])
    ensures DeliverAll([MonkeyState([695, 10, 71, 135, 350], 6), MonkeyState([], 10), MonkeyState([], 4), MonkeyState([126, 145, 171, 164, 1083], 5)], [Throw(43, 1), Throw(49, 1), Throw(58, 1), Throw(55, 1), Throw(362, 1)])
      == [MonkeyState([695, 10, 71, 135, 350], 6), MonkeyState([43, 49, 58, 55, 362], 10), MonkeyState([], 4), MonkeyState([126, 145, 171, 164, 1083], 5)]
  {
    DeliverChain([MonkeyState([695, 10, 71, 135, 350], 6), MonkeyState([], 10), MonkeyState([], 4), MonkeyState([126, 145, 171, 164, 1083], 5)], [Throw(43, 1), Throw(49, 1), Throw(58, 1), Throw(55, 1), Throw(362, 1)],
      [[MonkeyState([695, 10, 71, 135, 350], 6), MonkeyState([], 10), MonkeyState([], 4), MonkeyState([126, 145, 171, 164, 1083], 5)],
       [MonkeyState([695, 10, 71, 135, 350], 6), MonkeyState([43], 10), MonkeyState([], 4), MonkeyState([126, 145, 171, 164, 1083], 5)],
       [MonkeyState([695, 10, 71, 135, 350], 6), MonkeyState([43, 49], 10), MonkeyState([], 4), MonkeyState([126, 145, 171, 164, 1083], 5)],
       [MonkeyState([695, 10, 71, 135, 350], 6), MonkeyState([43, 49, 58], 10), MonkeyState([], 4), MonkeyState([126, 145, 171, 164, 1083], 5)],
       [MonkeyState([695, 10, 71, 135, 350], 6), MonkeyState([43, 49, 58, 55], 10), MonkeyState([], 4), MonkeyState([126, 145, 171, 164, 1083], 5)],
       [MonkeyState([695, 10, 71, 135, 350], 6), MonkeyState([43, 49, 58, 55, 362], 10), MonkeyState([], 4), MonkeyState([126, 145, 171, 164, 1083], 5)]]);
  }

  lemma ThirdTurn2_3()
    ensures Turn(ExampleRules(), [MonkeyState([695, 10, 71, 135, 350], 6), MonkeyState([], 10), MonkeyState([], 4), MonkeyState([126, 145, 171, 164, 1083], 5)], 3, Third)
      == [MonkeyState([695, 10, 71, 135, 350], 6), MonkeyState([43, 49, 58, 55, 362], 10), MonkeyState([], 4), MonkeyState([], 10)]
  {
    ThirdThrows2_3();
    ThirdDeliveries2_3();
  }

  lemma ThirdRound2(ms: seq<MonkeyState>)
    requires ms == [MonkeyState([20, 23, 27, 26], 2), MonkeyState([2080, 25, 167, 207, 401, 1046], 4), MonkeyState([], 3), MonkeyState([], 5)]
    ensures Round(ExampleRules(), ms, Third)
      == [MonkeyState([695, 10, 71, 135, 350], 6), MonkeyState([43, 49, 58, 55, 362], 10), MonkeyState([], 4), MonkeyState([], 10)]
  {
    ThirdTurn2_0(); ThirdTurn2_1(); ThirdTurn2_2(); ThirdTurn2_3();
    RoundBy(ExampleRules(), ms, Third,
      [MonkeyState([], 6), MonkeyState([2080, 25, 167, 207, 401, 1046], 4), MonkeyState([], 3), MonkeyState([126, 145, 171, 164], 5)],
      [MonkeyState([695, 10, 71, 135, 350], 6), MonkeyState([], 10), MonkeyState([57], 3), MonkeyState([126, 145, 171, 164], 5)],
      [MonkeyState([695, 10, 71, 135, 350], 6), MonkeyState([], 10), MonkeyState([], 4), MonkeyState([126, 145, 171, 164, 1083], 5)],
      [MonkeyState([695, 10, 71, 135, 350], 6), MonkeyState([43, 49, 58, 55, 362], 10), MonkeyState([], 4), MonkeyState([], 10)]);
  }

  lemma ThirdThrows3_0()
    ensures InspectAll(Rule(Mul(19), 23, 2, 3), [695, 10, 71, 135, 350], Third)
      == [Throw(4401, 3), Throw(63, 3), Throw(449, 3), Throw(855, 3), Throw(2216, 3)]
  {
  }

  lemma ThirdDeliveries3_0()
    ensures Lands([MonkeyState([695, 10, 71, 135, 350], 6), MonkeyState([43, 49, 58, 55, 362], 10), MonkeyState([], 4), MonkeyState([], 10)], [Throw(4401, 3), Throw(63, 3), Throw(449, 3), Throw(855, 3), Throw(2216, 3)])
    ensures DeliverAll([MonkeyState([695, 10, 71, 135, 350], 6), MonkeyState([43, 49, 58, 55, 362], 10), MonkeyState([], 4), MonkeyState([], 10)], [Throw(4401, 3), Throw(63, 3), Throw(449, 3), Throw(855, 3), Throw(2216, 3)])
      == [MonkeyState([695, 10, 71, 135, 350], 6), MonkeyState([43, 49, 58, 55, 362], 10), MonkeyState([], 4), MonkeyState([4401, 63, 449, 855, 2216], 10)]
  {
    DeliverChain([MonkeyState([695, 10, 71, 135, 350], 6), MonkeyState([43, 49, 58, 55, 362], 10), MonkeyState([], 4), MonkeyState([], 10)], [Throw(4401, 3), Throw(63, 3), Throw(449, 3), Throw(855, 3), Throw(2216, 3)],
      [[MonkeyState([695, 10, 71, 135, 350], 6), MonkeyState([43, 49, 58, 55, 362], 10), MonkeyState([], 4), MonkeyState([], 10)],
       [MonkeyState([695, 10, 71, 135, 350], 6), MonkeyState([43, 49, 58, 55, 362], 10), MonkeyState([], 4), MonkeyState([4401], 10)],
       [MonkeyState([695, 10, 71, 135, 350], 6), MonkeyState([43, 49, 58, 55, 362], 10), MonkeyState([], 4), MonkeyState([4401, 63], 10)],
       [MonkeyState([695, 10, 71, 135, 350], 6), MonkeyState([43, 49, 58, 55, 362], 10), MonkeyState([], 4), MonkeyState([4401, 63, 449], 10)],
       [MonkeyState([695, 10, 71, 135, 350], 6), MonkeyState([43, 49, 58, 55, 362], 10), MonkeyState([], 4), MonkeyState([4401, 63, 449, 855], 10)],
       [MonkeyState([695, 10, 71, 135, 350], 6), MonkeyState([43, 49, 58, 55, 362], 10), MonkeyState([], 4), MonkeyState([4401, 63, 449, 855, 2216], 10)]]);
  }

  lemma ThirdTurn3_0()
    ensures Turn(ExampleRules(), [MonkeyState([695, 10, 71, 135, 350], 6), MonkeyState([43, 49, 58, 55, 362], 10), MonkeyState([], 4), MonkeyState([], 10)], 0, Third)
      == [MonkeyState([], 11), MonkeyState([43, 49, 58, 55, 362], 10), MonkeyState([], 4), MonkeyState([4401, 63, 449, 855, 2216], 10)]
  {
    ThirdThrows3_0();
    ThirdDeliveries3_0();
  }

  lemma ThirdThrows3_1()
    ensures InspectAll(Rule(Add(6), 19, 2, 0), [43, 49, 58, 55, 362], Third)
      == [Throw(16, 0), Throw(18, 0), Throw(21, 0), Throw(20, 0), Throw(122, 0)]
  {
  }

  lemma ThirdDeliveries3_1()
    ensures Lands([MonkeyState([], 11), MonkeyState([43, 49, 58, 55, 362], 10), MonkeyState([], 4), MonkeyState([4401, 63, 449, 855, 2216], 10)], [Throw(16, 0), Throw(18, 0), Throw(21, 0), Throw(20, 0), Throw(122, 0)])
    ensures DeliverAll([MonkeyState([], 11), MonkeyState([43, 49, 58, 55, 362], 10), MonkeyState([], 4), MonkeyState([4401, 63, 449, 855, 2216], 10)], [Throw(16, 0), Throw(18, 0), Throw(21, 0), Throw(20, 0), Throw(122, 0)])
      == [MonkeyState([16, 18, 21, 20, 122], 11), MonkeyState([43, 49, 58, 55, 362], 10), MonkeyState([], 4), MonkeyState([4401, 63, 449, 855, 2216], 10)]
  {
    DeliverChain([MonkeyState([], 11), MonkeyState([43, 49, 58, 55, 362], 10), MonkeyState([], 4), MonkeyState([4401, 63, 449, 855, 2216], 10)], [Throw(16, 0), Throw(18, 0), Throw(21, 0), Throw(20, 0), Throw(122, 0)],
      [[MonkeyState([], 11), MonkeyState([43, 49, 58, 55, 362], 10), MonkeyState([], 4), MonkeyState([4401, 63, 449, 855, 2216], 10)],
       [MonkeyState([16], 11), MonkeyState([43, 49, 58, 55, 362], 10), MonkeyState([], 4), MonkeyState([4401, 63, 449, 855, 2216], 10)],
       [MonkeyState([16, 18], 11), MonkeyState([43, 49, 58, 55, 362], 10), MonkeyState([], 4), MonkeyState([4401, 63, 449, 855, 2216], 10)],
       [MonkeyState([16, 18, 21], 11), MonkeyState([43, 49, 58, 55, 362], 10), MonkeyState([], 4), MonkeyState([4401, 63, 449, 855, 2216], 10)],
       [MonkeyState([16, 18, 21, 20], 11), MonkeyState([43, 49, 58, 55, 362], 10), MonkeyState([], 4), MonkeyState([4401, 63, 449, 855, 2216], 10)],
       [MonkeyState([16, 18, 21, 20, 122], 11), MonkeyState([43, 49, 58, 55, 362], 10), MonkeyState([], 4), MonkeyState([4401, 63, 449, 855, 2216], 10)]]);
  }

  lemma ThirdTurn3_1()
    ensures Turn(ExampleRules(), [MonkeyState([], 11), MonkeyState([43, 49, 58, 55, 362], 10), MonkeyState([], 4), MonkeyState([4401, 63, 449, 855, 2216], 10)], 1, Third)
      == [MonkeyState([16, 18, 21, 20, 122], 11), MonkeyState([], 15), MonkeyState([], 4), MonkeyState([4401, 63, 449, 855, 2216], 10)]
  {
    ThirdThrows3_1();
    ThirdDeliveries3_1();
  }

  lemma ThirdThrows3_2()
    ensures InspectAll(Rule(Square, 13, 1, 3), [], Third)
      == []
  {
  }

  lemma ThirdDeliveries3_2()
    ensures Lands([MonkeyState([16, 18, 21, 20, 122], 11), MonkeyState([], 15), MonkeyState([], 4), MonkeyState([4401, 63, 449, 855, 2216], 10)], [])
    ensures DeliverAll([MonkeyState([16, 18, 21, 20, 122], 11), MonkeyState([], 15), MonkeyState([], 4), MonkeyState([4401, 63, 449, 855, 2216], 10)], [])
      == [MonkeyState([16, 18, 21, 20, 122], 11), MonkeyState([], 15), MonkeyState([], 4), MonkeyState([4401, 63, 449, 855, 2216], 10)]
  {
    DeliverChain([MonkeyState([16, 18, 21, 20, 122], 11), MonkeyState([], 15), MonkeyState([], 4), MonkeyState([4401, 63, 449, 855, 2216], 10)], [],
      [[MonkeyState([16, 18, 21, 20, 122], 11), MonkeyState([], 15), MonkeyState([], 4), MonkeyState([4401, 63, 449, 855, 2216], 10)]]);
  }

  lemma ThirdTurn3_2()
    ensures Turn(ExampleRules(), [MonkeyState([16, 18, 21, 20, 122], 11), MonkeyState([], 15), MonkeyState([], 4), MonkeyState([4401, 63, 449, 855, 2216], 10)], 2, Third)
      == [MonkeyState([16, 18, 21, 20, 122], 11), MonkeyState([], 15), MonkeyState([], 4), MonkeyState([4401, 63, 449, 855, 2216], 10)]
  {
    ThirdThrows3_2();
    ThirdDeliveries3_2();
  }

  lemma ThirdThrows3_3()
    ensures InspectAll(Rule(Add(3), 17, 0, 1), [4401, 63, 449, 855, 2216], Third)
      == [Throw(1468, 1), Throw(22, 1), Throw(150, 1), Throw(286, 1), Throw(739, 1)]
  {
  }

  lemma ThirdDeliveries3_3()
    ensures Lands([MonkeyState([16, 18, 21, 20, 122], 11), MonkeyState([], 15), MonkeyState([], 4), MonkeyState([4401, 63, 449, 855, 2216], 10)], [Throw(1468, 1), Throw(22, 1), Throw(150, 1), Throw(286, 1), Throw(739, 1)])
    ensures DeliverAll([MonkeyState([16, 18, 21, 20, 122], 11), MonkeyState([], 15), MonkeyState([], 4), MonkeyState([4401, 63, 449, 855, 2216], 10)], [Throw(1468, 1), Throw(22, 1), Throw(150, 1), Throw(286, 1), Throw(739, 1)])
      == [MonkeyState([16, 18, 21, 20, 122], 11), MonkeyState([1468, 22, 150, 286, 739], 15), MonkeyState([], 4), MonkeyState([4401, 63, 449, 855, 2216], 10)]
  {
    DeliverChain([MonkeyState([16, 18, 21, 20, 122], 11), MonkeyState([], 15), MonkeyState([], 4), MonkeyState([4401, 63, 449, 855, 2216], 10)], [Throw(1468, 1), Throw(22, 1), Throw(150, 1), Throw(286, 1), Throw(739, 1)],
      [[MonkeyState([16, 18, 21, 20, 122], 11), MonkeyState([], 15), MonkeyState([], 4), MonkeyState([4401, 63, 449, 855, 2216], 10)],
       [MonkeyState([16, 18, 21, 20, 122], 11), MonkeyState([1468], 15), MonkeyState([], 4), MonkeyState([4401, 63, 449, 855, 2216], 10)],
       [MonkeyState([16, 18, 21, 20, 122], 11), MonkeyState([1468, 22], 15), MonkeyState([], 4), MonkeyState([4401, 63, 449, 855, 2216], 10)],
       [MonkeyState([16, 18, 21, 20, 122], 11), MonkeyState([1468, 22, 150], 15), MonkeyState([], 4), MonkeyState([4401, 63, 449, 855, 2216], 10)],
       [MonkeyState([16, 18, 21, 20, 122], 11), MonkeyState([1468, 22, 150, 286], 15), MonkeyState([], 4), MonkeyState([4401, 63, 449, 855, 2216], 10)],
       [MonkeyState([16, 18, 21, 20, 122], 11), MonkeyState([1468, 22, 150, 286, 739], 15), MonkeyState([], 4), MonkeyState([4401, 63, 449, 855, 2216], 10)]]);
  }

  lemma ThirdTurn3_3()
    ensures Turn(ExampleRules(), [MonkeyState([16, 18, 21, 20, 122], 11), MonkeyState([], 15), MonkeyState([], 4), MonkeyState([4401, 63, 449, 855, 2216], 10)], 3, Third)
      == [MonkeyState([16, 18, 21, 20, 122], 11), MonkeyState([1468, 22, 150, 286, 739], 15), MonkeyState([], 4), MonkeyState([], 15)]
  {
    ThirdThrows3_3();
    ThirdDeliveries3_3();
  }

  lemma ThirdRound3(ms: seq<MonkeyState>)
    requires ms == [MonkeyState([695, 10, 71, 135, 350], 6), MonkeyState([43, 49, 58, 55, 362], 10), MonkeyState([], 4), MonkeyState([], 10)]
    ensures Round(ExampleRules(), ms, Third)
      == [MonkeyState([16, 18, 21, 20, 122], 11), MonkeyState([1468, 22, 150, 286, 739], 15), MonkeyState([], 4), MonkeyState([], 15)]
  {
    ThirdTurn3_0(); ThirdTurn3_1(); ThirdTurn3_2(); ThirdTurn3_3();
    RoundBy(ExampleRules(), ms, Third,
      [MonkeyState([], 11), MonkeyState([43, 49, 58, 55, 362], 10), MonkeyState([], 4), MonkeyState([4401, 63, 449, 855, 2216], 10)],
      [MonkeyState([16, 18, 21, 20, 122], 11), MonkeyState([], 15), MonkeyState([], 4), MonkeyState([4401, 63, 449, 855, 2216], 10)],
      [MonkeyState([16, 18, 21, 20, 122], 11), MonkeyState([], 15), MonkeyState([], 4), MonkeyState([4401, 63, 449, 855, 2216], 10)],
      [MonkeyState([16, 18, 21, 20, 122], 11), MonkeyState([1468, 22, 150, 286, 739], 15), MonkeyState([], 4), MonkeyState([], 15)]);
  }

  lemma ThirdThrows4_0()
    ensures InspectAll(Rule(Mul(19), 23, 2, 3), [16, 18, 21, 20, 122], Third)
      == [Throw(101, 3), Throw(114, 3), Throw(133, 3), Throw(126, 3), Throw(772, 3)]
  {
  }

  lemma ThirdDeliveries4_0()
    ensures Lands([MonkeyState([16, 18, 21, 20, 122], 11), MonkeyState([1468, 22, 150, 286, 739], 15), MonkeyState([], 4), MonkeyState([], 15)], [Throw(101, 3), Throw(114, 3), Throw(133, 3), Throw(126, 3), Throw(772, 3)])
    ensures DeliverAll([MonkeyState([16, 18, 21, 20, 122], 11), MonkeyState([1468, 22, 150, 286, 739], 15), MonkeyState([], 4), MonkeyState([], 15)], [Throw(101, 3), Throw(114, 3), Throw(133, 3), Throw(126, 3), Throw(772, 3)])
      == [MonkeyState([16, 18, 21, 20, 122], 11), MonkeyState([1468, 22, 150, 286, 739], 15), MonkeyState([], 4), MonkeyState([101, 114, 133, 126, 772], 15)]
  {
    DeliverChain([MonkeyState([16, 18, 21, 20, 122], 11), MonkeyState([1468, 22, 150, 286, 739], 15), MonkeyState([], 4), MonkeyState([], 15)], [Throw(101, 3), Throw(114, 3), Throw(133, 3), Throw(126, 3), Throw(772, 3)],
      [[MonkeyState([16, 18, 21, 20, 122], 11), MonkeyState([1468, 22, 150, 286, 739], 15), MonkeyState([], 4), MonkeyState([], 15)],
       [MonkeyState([16, 18, 21, 20, 122], 11), MonkeyState([1468, 22, 150, 286, 739], 15), MonkeyState([], 4), MonkeyState([101], 15)],
       [MonkeyState([16, 18, 21, 20, 122], 11), MonkeyState([1468, 22, 150, 286, 739], 15), MonkeyState([], 4), MonkeyState([101, 114], 15)],
       [MonkeyState([16, 18, 21, 20, 122], 11), MonkeyState([1468, 22, 150, 286, 739], 15), MonkeyState([], 4), MonkeyState([101, 114, 133], 15)],
       [MonkeyState([16, 18, 21, 20, 122], 11), MonkeyState([1468, 22, 150, 286, 739], 15), MonkeyState([], 4), MonkeyState([101, 114, 133, 126], 15)],
       [MonkeyState([16, 18, 21, 20, 122], 11), MonkeyState([1468, 22, 150, 286, 739], 15), MonkeyState([], 4), MonkeyState([101, 114, 133, 126, 772], 15)]]);
  }

  lemma ThirdTurn4_0()
    ensures Turn(ExampleRules(), [MonkeyState([16, 18, 21, 20, 122], 11), MonkeyState([1468, 22, 150, 286, 739], 15), MonkeyState([], 4), MonkeyState([], 15)], 0, Third)
      == [MonkeyState([], 16), MonkeyState([1468, 22, 150, 286, 739], 15), MonkeyState([], 4), MonkeyState([101, 114, 133, 126, 772], 15)]
  {
    ThirdThrows4_0();
    ThirdDeliveries4_0();
  }

  lemma ThirdThrows4_1()
    ensures InspectAll(Rule(Add(6), 19, 2, 0), [1468, 22, 150, 286, 739], Third)
      == [Throw(491, 0), Throw(9, 0), Throw(52, 0), Throw(97, 0), Throw(248, 0)]
  {
  }

  lemma ThirdDeliveries4_1()
    ensures Lands([MonkeyState([], 16), MonkeyState([1468, 22, 150, 286, 739], 15), MonkeyState([], 4), MonkeyState([101, 114, 133, 126, 772], 15)], [Throw(491, 0), Throw(9, 0), Throw(52, 0), Throw(97, 0), Throw(248, 0)])
    ensures DeliverAll([MonkeyState([], 16), MonkeyState([1468, 22, 150, 286, 739], 15), MonkeyState([], 4), MonkeyState([101, 114, 133, 126, 772], 15)], [Throw(491, 0), Throw(9, 0), Throw(52, 0), Throw(97, 0), Throw(248, 0)])
      == [MonkeyState([491, 9, 52, 97, 248], 16), MonkeyState([1468, 22, 150, 286, 739], 15), MonkeyState([], 4), MonkeyState([101, 114, 133, 126, 772], 15)]
  {
    DeliverChain([MonkeyState([], 16), MonkeyState([1468, 22, 150, 286, 739], 15), MonkeyState([], 4), MonkeyState([101, 114, 133, 126, 772], 15)], [Throw(491, 0), Throw(9, 0), Throw(52, 0), Throw(97, 0), Throw(248, 0)],
      [[MonkeyState([], 16), MonkeyState([1468, 22, 150, 286, 739], 15), MonkeyState([], 4), MonkeyState([101, 114, 133, 126, 772], 15)],
       [MonkeyState([491], 16), MonkeyState([1468, 22, 150, 286, 739], 15), MonkeyState([], 4), MonkeyState([101, 114, 133, 126, 772], 15)],
       [MonkeyState([491, 9], 16), MonkeyState([1468, 22, 150, 286, 739], 15), MonkeyState([], 4), MonkeyState([101, 114, 133, 126, 772], 15)],
       [MonkeyState([491, 9, 52], 16), MonkeyState([1468, 22, 150, 286, 739], 15), MonkeyState([], 4), MonkeyState([101, 114, 133, 126, 772], 15)],
       [MonkeyState([491, 9, 52, 97], 16), MonkeyState([1468, 22, 150, 286, 739], 15), MonkeyState([], 4), MonkeyState([101, 114, 133, 126, 772], 15)],
       [MonkeyState([491, 9, 52, 97, 248], 16), MonkeyState([1468, 22, 150, 286, 739], 15), MonkeyState([], 4), MonkeyState([101, 114, 133, 126, 772], 15)]]);
  }

  lemma ThirdTurn4_1()
    ensures Turn(ExampleRules(), [MonkeyState([], 16), MonkeyState([1468, 22, 150, 286, 739], 15), MonkeyState([], 4), MonkeyState([101, 114, 133, 126, 772], 15)], 1, Third)
      == [MonkeyState([491, 9, 52, 97, 248], 16), MonkeyState([], 20), MonkeyState([], 4), MonkeyState([101, 114, 133, 126, 772], 15)]
  {
    ThirdThrows4_1();
    ThirdDeliveries4_1();
  }

  lemma ThirdThrows4_2()
    ensures InspectAll(Rule(Square, 13, 1, 3), [], Third)
      == []
  {
  }

  lemma ThirdDeliveries4_2()
    ensures Lands([MonkeyState([491, 9, 52, 97, 248], 16), MonkeyState([], 20), MonkeyState([], 4), MonkeyState([101, 114, 133, 126, 772], 15)], [])
    ensures DeliverAll([MonkeyState([491, 9, 52, 97, 248], 16), MonkeyState([], 20), MonkeyState([], 4), MonkeyState([101, 114, 133, 126, 772], 15)], [])
      == [MonkeyState([491, 9, 52, 97, 248], 16), MonkeyState([], 20), MonkeyState([], 4), MonkeyState([101, 114, 133, 126, 772], 15)]
  {
    DeliverChain([MonkeyState([491, 9, 52, 97, 248], 16), MonkeyState([], 20), MonkeyState([], 4), MonkeyState([101, 114, 133, 126, 772], 15)], [],
      [[MonkeyState([491, 9, 52, 97, 248], 16), MonkeyState([], 20), MonkeyState([], 4), MonkeyState([101, 114, 133, 126, 772], 15)]]);
  }

  lemma ThirdTurn4_2()
    ensures Turn(ExampleRules(), [MonkeyState([491, 9, 52, 97, 248], 16), MonkeyState([], 20), MonkeyState([], 4), MonkeyState([101, 114, 133, 126, 772], 15)], 2, Third)
      == [MonkeyState([491, 9, 52, 97, 248], 16), MonkeyState([], 20), MonkeyState([], 4), MonkeyState([101, 114, 133, 126, 772], 15)]
  {
    ThirdThrows4_2();
    ThirdDeliveries4_2();
  }

  lemma ThirdThrows4_3()
    ensures InspectAll(Rule(Add(3), 17, 0, 1), [101, 114, 133, 126, 772], Third)
      == [Throw(34, 0), Throw(39, 1), Throw(45, 1), Throw(43, 1), Throw(258, 1)]
  {
  }

  lemma ThirdDeliveries4_3()
    ensures Lands([MonkeyState([491, 9, 52, 97, 248], 16), MonkeyState([], 20), MonkeyState([], 4), MonkeyState([101, 114, 133, 126, 772], 15)], [Throw(34, 0), Throw(39, 1), Throw(45, 1), Throw(43, 1), Throw(258, 1)])
    ensures DeliverAll([MonkeyState([491, 9, 52, 97, 248], 16), MonkeyState([], 20), MonkeyState([], 4), MonkeyState([101, 114, 133, 126, 772], 15)], [Throw(34, 0), Throw(39, 1), Throw(45, 1), Throw(43, 1), Throw(258, 1)])
      == [MonkeyState([491, 9, 52, 97, 248, 34], 16), MonkeyState([39, 45, 43, 258], 20), MonkeyState([], 4), MonkeyState([101, 114, 133, 126, 772], 15)]
  {
    DeliverChain([MonkeyState([491, 9, 52, 97, 248], 16), MonkeyState([], 20), MonkeyState([], 4), MonkeyState([101, 114, 133, 126, 772], 15)], [Throw(34, 0), Throw(39, 1), Throw(45, 1), Throw(43, 1), Throw(258, 1)],
      [[MonkeyState([491, 9, 52, 97, 248], 16), MonkeyState([], 20), MonkeyState([], 4), MonkeyState([101, 114, 133, 126, 772], 15)],
       [MonkeyState([491, 9, 52, 97, 248, 34], 16), MonkeyState([], 20), MonkeyState([], 4), MonkeyState([101, 114, 133, 126, 772], 15)],
       [MonkeyState([491, 9, 52, 97, 248, 34], 16), MonkeyState([39], 20), MonkeyState([], 4), MonkeyState([101, 114, 133, 126, 772], 15)],
       [MonkeyState([491, 9, 52, 97, 248, 34], 16), MonkeyState([39, 45], 20), MonkeyState([], 4), MonkeyState([101, 114, 133, 126, 772], 15)],
       [MonkeyState([491, 9, 52, 97, 248, 34], 16), MonkeyState([39, 45, 43], 20), MonkeyState([], 4), MonkeyState([101, 114, 133, 126, 772], 15)],
       [MonkeyState([491, 9, 52, 97, 248, 34], 16), MonkeyState([39, 45, 43, 258], 20), MonkeyState([], 4), MonkeyState([101, 114, 133, 126, 772], 15)]]);
  }

  lemma ThirdTurn4_3()
    ensures Turn(ExampleRules(), [MonkeyState([491, 9, 52, 97, 248], 16), MonkeyState([], 20), MonkeyState([], 4), MonkeyState([101, 114, 133, 126, 772], 15)], 3, Third)
      == [MonkeyState([491, 9, 52, 97, 248, 34], 16), MonkeyState([39, 45, 43, 258], 20), MonkeyState([], 4), MonkeyState([], 20)]
  {
    ThirdThrows4_3();
    ThirdDeliveries4_3();
  }

  lemma ThirdRound4(ms: seq<MonkeyState>)
    requires ms == [MonkeyState([16, 18, 21, 20, 122], 11), MonkeyState([1468, 22, 150, 286, 739], 15), MonkeyState([], 4), MonkeyState([], 15)]
    ensures Round(ExampleRules(), ms, Third)
      == [MonkeyState([491, 9, 52, 97, 248, 34], 16), MonkeyState([39, 45, 43, 258], 20), MonkeyState([], 4), MonkeyState([], 20)]
  {
    ThirdTurn4_0(); ThirdTurn4_1(); ThirdTurn4_2(); ThirdTurn4_3();
    RoundBy(ExampleRules(), ms, Third,
      [MonkeyState([], 16), MonkeyState([1468, 22, 150, 286, 739], 15), MonkeyState([], 4), MonkeyState([101, 114, 133, 126, 772], 15)],
      [MonkeyState([491, 9, 52, 97, 248], 16), MonkeyState([], 20), MonkeyState([], 4), MonkeyState([101, 114, 133, 126, 772], 15)],
      [MonkeyState([491, 9, 52, 97, 248], 16), MonkeyState([], 20), MonkeyState([], 4), MonkeyState([101, 114, 133, 126, 772], 15)],
      [MonkeyState([491, 9, 52, 97, 248, 34], 16), MonkeyState([39, 45, 43, 258], 20), MonkeyState([], 4), MonkeyState([], 20)]);
  }

  lemma ThirdThrows5_0()
    ensures InspectAll(Rule(Mul(19), 23, 2, 3), [491, 9, 52, 97, 248, 34], Third)
      == [Throw(3109, 3), Throw(57, 3), Throw(329, 3), Throw(614, 3), Throw(1570, 3), Throw(215, 3)]
  {
  }

  lemma ThirdDeliveries5_0()
    ensures Lands([MonkeyState([491, 9, 52, 97, 248, 34], 16), MonkeyState([39, 45, 43, 258], 20), MonkeyState([], 4), MonkeyState([], 20)], [Throw(3109, 3), Throw(57, 3), Throw(329, 3), Throw(614, 3), Throw(1570, 3), Throw(215, 3)])
    ensures DeliverAll([MonkeyState([491, 9, 52, 97, 248, 34], 16), MonkeyState([39, 45, 43, 258], 20), MonkeyState([], 4), MonkeyState([], 20)], [Throw(3109, 3), Throw(57, 3), Throw(329, 3), Throw(614, 3), Throw(1570, 3), Throw(215, 3)])
      == [MonkeyState([491, 9, 52, 97, 248, 34], 16), MonkeyState([39, 45, 43, 258], 20), MonkeyState([], 4), MonkeyState([3109, 57, 329, 614, 1570, 215], 20)]
  {
    DeliverChain([MonkeyState([491, 9, 52, 97, 248, 34], 16), MonkeyState([39, 45, 43, 258], 20), MonkeyState([], 4), MonkeyState([], 20)], [Throw(3109, 3), Throw(57, 3), Throw(329, 3), Throw(614, 3), Throw(1570, 3), Throw(215, 3)],
      [[MonkeyState([491, 9, 52, 97, 248, 34], 16), MonkeyState([39, 45, 43, 258], 20), MonkeyState([], 4), MonkeyState([], 20)],
       [MonkeyState([491, 9, 52, 97, 248, 34], 16), MonkeyState([39, 45, 43, 258], 20), MonkeyState([], 4), MonkeyState([3109], 20)],
       [MonkeyState([491, 9, 52, 97, 248, 34], 16), MonkeyState([39, 45, 43, 258], 20), MonkeyState([], 4), MonkeyState([3109, 57], 20)],
       [MonkeyState([491, 9, 52, 97, 248, 34], 16), MonkeyState([39, 45, 43, 258], 20), MonkeyState([], 4), MonkeyState([3109, 57, 329], 20)],
       [MonkeyState([491, 9, 52, 97, 248, 34], 16), MonkeyState([39, 45, 43, 258], 20), MonkeyState([], 4), MonkeyState([3109, 57, 329, 614], 20)],
       [MonkeyState([491, 9, 52, 97, 248, 34], 16), MonkeyState([39, 45, 43, 258], 20), MonkeyState([], 4), MonkeyState([3109, 57, 329, 614, 1570], 20)],
       [MonkeyState([491, 9, 52, 97, 248, 34], 16), MonkeyState([39, 45, 43, 258], 20), MonkeyState([], 4), MonkeyState([3109, 57, 329, 614, 1570, 215], 20)]]);
  }

  lemma ThirdTurn5_0()
    ensures Turn(ExampleRules(), [MonkeyState([491, 9, 52, 97, 248, 34], 16), MonkeyState([39, 45, 43, 258], 20), MonkeyState([], 4), MonkeyState([], 20)], 0, Third)
      == [MonkeyState([], 22), MonkeyState([39, 45, 43, 258], 20), MonkeyState([], 4), MonkeyState([3109, 57, 329, 614, 1570, 215], 20)]
  {
    ThirdThrows5_0();
    ThirdDeliveries5_0();
  }

  lemma ThirdThrows5_1()
    ensures InspectAll(Rule(Add(6), 19, 2, 0), [39, 45, 43, 258], Third)
      == [Throw(15, 0), Throw(17, 0), Throw(16, 0), Throw(88, 0)]
  {
  }

  lemma ThirdDeliveries5_1()
    ensures Lands([MonkeyState([], 22), MonkeyState([39, 45, 43, 258], 20), MonkeyState([], 4), MonkeyState([3109, 57, 329, 614, 1570, 215], 20)], [Throw(15, 0), Throw(17, 0), Throw(16, 0), Throw(88, 0)])
    ensures DeliverAll([MonkeyState([], 22), MonkeyState([39, 45, 43, 258], 20), MonkeyState([], 4), MonkeyState([3109, 57, 329, 614, 1570, 215], 20)], [Throw(15, 0), Throw(17, 0), Throw(16, 0), Throw(88, 0)])
      == [MonkeyState([15, 17, 16, 88], 22), MonkeyState([39, 45, 43, 258], 20), MonkeyState([], 4), MonkeyState([3109, 57, 329, 614, 1570, 215], 20)]
  {
    DeliverChain([MonkeyState([], 22), MonkeyState([39, 45, 43, 258], 20), MonkeyState([], 4), MonkeyState([3109, 57, 329, 614, 1570, 215], 20)], [Throw(15, 0), Throw(17, 0), Throw(16, 0), Throw(88, 0)],
      [[MonkeyState([], 22), MonkeyState([39, 45, 43, 258], 20), MonkeyState([], 4), MonkeyState([3109, 57, 329, 614, 1570, 215], 20)],
       [MonkeyState([15], 22), MonkeyState([39, 45, 43, 258], 20), MonkeyState([], 4), MonkeyState([3109, 57, 329, 614, 1570, 215], 20)],
       [MonkeyState([15, 17], 22), MonkeyState([39, 45, 43, 258], 20), MonkeyState([], 4), MonkeyState([3109, 57, 329, 614, 1570, 215], 20)],
       [MonkeyState([15, 17, 16], 22), MonkeyState([39, 45, 43, 258], 20), MonkeyState([], 4), MonkeyState([3109, 57, 329, 614, 1570, 215], 20)],
       [MonkeyState([15, 17, 16, 88], 22), MonkeyState([39, 45, 43, 258], 20), MonkeyState([], 4), MonkeyState([3109, 57, 329, 614, 1570, 215], 20)]]);
  }

  lemma ThirdTurn5_1()
    ensures Turn(ExampleRules(), [MonkeyState([], 22), MonkeyState([39, 45, 43, 258], 20), MonkeyState([], 4), MonkeyState([3109, 57, 329, 614, 1570, 215], 20)], 1, Third)
      == [MonkeyState([15, 17, 16, 88], 22), MonkeyState([], 24), MonkeyState([], 4), MonkeyState([3109, 57, 329, 614, 1570, 215], 20)]
  {
    ThirdThrows5_1();
    ThirdDeliveries5_1();
  }

  lemma ThirdThrows5_2()
    ensures InspectAll(Rule(Square, 13, 1, 3), [], Third)
      == []
  {
  }

  lemma ThirdDeliveries5_2()
    ensures Lands([MonkeyState([15, 17, 16, 88], 22), MonkeyState([], 24), MonkeyState([], 4), MonkeyState([3109, 57, 329, 614, 1570, 215], 20)], [])
    ensures DeliverAll([MonkeyState([15, 17, 16, 88], 22), MonkeyState([], 24), MonkeyState([], 4), MonkeyState([3109, 57, 329, 614, 1570, 215], 20)], [])
      == [MonkeyState([15, 17, 16, 88], 22), MonkeyState([], 24), MonkeyState([], 4), MonkeyState([3109, 57, 329, 614, 1570, 215], 20)]
  {
    DeliverChain([MonkeyState([15, 17, 16, 88], 22), MonkeyState([], 24), MonkeyState([], 4), MonkeyState([3109, 57, 329, 614, 1570, 215], 20)], [],
      [[MonkeyState([15, 17, 16, 88], 22), MonkeyState([], 24), MonkeyState([], 4), MonkeyState([3109, 57, 329, 614, 1570, 215], 20)]]);
  }

  lemma ThirdTurn5_2()
    ensures Turn(ExampleRules(), [MonkeyState([15, 17, 16, 88], 22), MonkeyState([], 24), MonkeyState([], 4), MonkeyState([3109, 57, 329, 614, 1570, 215], 20)], 2, Third)
      == [MonkeyState([15, 17, 16, 88], 22), MonkeyState([], 24), MonkeyState([], 4), MonkeyState([3109, 57, 329, 614, 1570, 215], 20)]
  {
    ThirdThrows5_2();
    ThirdDeliveries5_2();
  }

  lemma ThirdThrows5_3()
    ensures InspectAll(Rule(Add(3), 17, 0, 1), [3109, 57, 329, 614, 1570, 215], Third)
      == [Throw(1037, 0), Throw(20, 1), Throw(110, 1), Throw(205, 1), Throw(524, 1), Throw(72, 1)]
  {
  }

  lemma ThirdDeliveries5_3()
    ensures Lands([MonkeyState([15, 17, 16, 88], 22), MonkeyState([], 24), MonkeyState([], 4), MonkeyState([3109, 57, 329, 614, 1570, 215], 20)], [Throw(1037, 0), Throw(20, 1), Throw(110, 1), Throw(205, 1), Throw(524, 1), Throw(72, 1)])
    ensures DeliverAll([MonkeyState([15, 17, 16, 88], 22), MonkeyState([], 24), MonkeyState([], 4), MonkeyState([3109, 57, 329, 614, 1570, 215], 20)], [Throw(1037, 0), Throw(20, 1), Throw(110, 1), Throw(205, 1), Throw(524, 1), Throw(72, 1)])
      == [MonkeyState([15, 17, 16, 88, 1037], 22), MonkeyState([20, 110, 205, 524, 72], 24), MonkeyState([], 4), MonkeyState([3109, 57, 329, 614, 1570, 215], 20)]
  {
    DeliverChain([MonkeyState([15, 17, 16, 88], 22), MonkeyState([], 24), MonkeyState([], 4), MonkeyState([3109, 57, 329, 614, 1570, 215], 20)], [Throw(1037, 0), Throw(20, 1), Throw(110, 1), Throw(205, 1), Throw(524, 1), Throw(72, 1)],
      [[MonkeyState([15, 17, 16, 88], 22), MonkeyState([], 24), MonkeyState([], 4), MonkeyState([3109, 57, 329, 614, 1570, 215], 20)],
       [MonkeyState([15, 17, 16, 88, 1037], 22), MonkeyState([], 24), MonkeyState([], 4), MonkeyState([3109, 57, 329, 614, 1570, 215], 20)],
       [MonkeyState([15, 17, 16, 88, 1037], 22), MonkeyState([20], 24), MonkeyState([], 4), MonkeyState([3109, 57, 329, 614, 1570, 215], 20)],
       [MonkeyState([15, 17, 16, 88, 1037], 22), MonkeyState([20, 110], 24), MonkeyState([], 4), MonkeyState([3109, 57, 329, 614, 1570, 215], 20)],
       [MonkeyState([15, 17, 16, 88, 1037], 22), MonkeyState([20, 110, 205], 24), MonkeyState([], 4), MonkeyState([3109, 57, 329, 614, 1570, 215], 20)],
       [MonkeyState([15, 17, 16, 88, 1037], 22), MonkeyState([20, 110, 205, 524], 24), MonkeyState([], 4), MonkeyState([3109, 57, 329, 614, 1570, 215], 20)],
       [MonkeyState([15, 17, 16, 88, 1037], 22), MonkeyState([20, 110, 205, 524, 72], 24), MonkeyState([], 4), MonkeyState([3109, 57, 329, 614, 1570, 215], 20)]]);
  }

  lemma ThirdTurn5_3()
    ensures Turn(ExampleRules(), [MonkeyState([15, 17, 16, 88], 22), MonkeyState([], 24), MonkeyState([], 4), MonkeyState([3109, 57, 329, 614, 1570, 215], 20)], 3, Third)
      == [MonkeyState([15, 17, 16, 88, 1037], 22), MonkeyState([20, 110, 205, 524, 72], 24), MonkeyState([], 4), MonkeyState([], 26)]
  {
    ThirdThrows5_3();
    ThirdDeliveries5_3();
  }

  lemma ThirdRound5(ms: seq<MonkeyState>)
    requires ms == [MonkeyState([491, 9, 52, 97, 248, 34], 16), MonkeyState([39, 45, 43, 258], 20), MonkeyState([], 4), MonkeyState([], 20)]
    ensures Round(ExampleRules(), ms, Third)
      == [MonkeyState([15, 17, 16, 88, 1037], 22), MonkeyState([20, 110, 205, 524, 72], 24), MonkeyState([], 4), MonkeyState([], 26)]
  {
    ThirdTurn5_0(); ThirdTurn5_1(); ThirdTurn5_2(); ThirdTurn5_3();
    RoundBy(ExampleRules(), ms, Third,
      [MonkeyState([], 22), MonkeyState([39, 45, 43, 258], 20), MonkeyState([], 4), MonkeyState([3109, 57, 329, 614, 1570, 215], 20)],
      [MonkeyState([15, 17, 16, 88], 22), MonkeyState([], 24), MonkeyState([], 4), MonkeyState([3109, 57, 329, 614, 1570, 215], 20)],
      [MonkeyState([15, 17, 16, 88], 22), MonkeyState([], 24), MonkeyState([], 4), MonkeyState([3109, 57, 329, 614, 1570, 215], 20)],
      [MonkeyState([15, 17, 16, 88, 1037], 22), MonkeyState([20, 110, 205, 524, 72], 24), MonkeyState([], 4), MonkeyState([], 26)]);
  }

  lemma ThirdThrows6_0()
    ensures InspectAll(Rule(Mul(19), 23, 2, 3), [15, 17, 16, 88, 1037], Third)
      == [Throw(95, 3), Throw(107, 3), Throw(101, 3), Throw(557, 3), Throw(6567, 3)]
  {
  }

  lemma ThirdDeliveries6_0()
    ensures Lands([MonkeyState([15, 17, 16, 88, 1037], 22), MonkeyState([20, 110, 205, 524, 72], 24), MonkeyState([], 4), MonkeyState([], 26)], [Throw(95, 3), Throw(107, 3), Throw(101, 3), Throw(557, 3), Throw(6567, 3)])
    ensures DeliverAll([MonkeyState([15, 17, 16, 88, 1037], 22), MonkeyState([20, 110, 205, 524, 72], 24), MonkeyState([], 4), MonkeyState([], 26)], [Throw(95, 3), Throw(107, 3), Throw(101, 3), Throw(557, 3), Throw(6567, 3)])
      == [MonkeyState([15, 17, 16, 88, 1037], 22), MonkeyState([20, 110, 205, 524, 72], 24), MonkeyState([], 4), MonkeyState([95, 107, 101, 557, 6567], 26)]
  {
    DeliverChain([MonkeyState([15, 17, 16, 88, 1037], 22), MonkeyState([20, 110, 205, 524, 72], 24), MonkeyState([], 4), MonkeyState([], 26)], [Throw(95, 3), Throw(107, 3), Throw(101, 3), Throw(557, 3), Throw(6567, 3)],
      [[MonkeyState([15, 17, 16, 88, 1037], 22), MonkeyState([20, 110, 205, 524, 72], 24), MonkeyState([], 4), MonkeyState([], 26)],
       [MonkeyState([15, 17, 16, 88, 1037], 22), MonkeyState([20, 110, 205, 524, 72], 24), MonkeyState([], 4), MonkeyState([95], 26)],
       [MonkeyState([15, 17, 16, 88, 1037], 22), MonkeyState([20, 110, 205, 524, 72], 24), MonkeyState([], 4), MonkeyState([95, 107], 26)],
       [MonkeyState([15, 17, 16, 88, 1037], 22), MonkeyState([20, 110, 205, 524, 72], 24), MonkeyState([], 4), MonkeyState([95, 107, 101], 26)],
       [MonkeyState([15, 17, 16, 88, 1037], 22), MonkeyState([20, 110, 205, 524, 72], 24), MonkeyState([], 4), MonkeyState([95, 107, 101, 557], 26)],
       [MonkeyState([15, 17, 16, 88, 1037], 22), MonkeyState([20, 110, 205, 524, 72], 24), MonkeyState([], 4), MonkeyState([95, 107, 101, 557, 6567], 26)]]);
  }

  lemma ThirdTurn6_0()
    ensures Turn(ExampleRules(), [MonkeyState([15, 17, 16, 88, 1037], 22), MonkeyState([20, 110, 205, 524, 72], 24), MonkeyState([], 4), MonkeyState([], 26)], 0, Third)
      == [MonkeyState([], 27), MonkeyState([20, 110, 205, 524, 72], 24), MonkeyState([], 4), MonkeyState([95, 107, 101, 557, 6567], 26)]
  {
    ThirdThrows6_0();
    ThirdDeliveries6_0();
  }

  lemma ThirdThrows6_1()
    ensures InspectAll(Rule(Add(6), 19, 2, 0), [20, 110, 205, 524, 72], Third)
      == [Throw(8, 0), Throw(38, 2), Throw(70, 0), Throw(176, 0), Throw(26, 0)]
  {
  }

  lemma ThirdDeliveries6_1()
    ensures Lands([MonkeyState([], 27), MonkeyState([20, 110, 205, 524, 72], 24), MonkeyState([], 4), MonkeyState([95, 107, 101, 557, 6567], 26)], [Throw(8, 0), Throw(38, 2), Throw(70, 0), Throw(176, 0), Throw(26, 0)])
    ensures DeliverAll([MonkeyState([], 27), MonkeyState([20, 110, 205, 524, 72], 24), MonkeyState([], 4), MonkeyState([95, 107, 101, 557, 6567], 26)], [Throw(8, 0), Throw(38, 2), Throw(70, 0), Throw(176, 0), Throw(26, 0)])
      == [MonkeyState([8, 70, 176, 26], 27), MonkeyState([20, 110, 205, 524, 72], 24), MonkeyState([38], 4), MonkeyState([95, 107, 101, 557, 6567], 26)]
  {
    DeliverChain([MonkeyState([], 27), MonkeyState([20, 110, 205, 524, 72], 24), MonkeyState([], 4), MonkeyState([95, 107, 101, 557, 6567], 26)], [Throw(8, 0), Throw(38, 2), Throw(70, 0), Throw(176, 0), Throw(26, 0)],
      [[MonkeyState([], 27), MonkeyState([20, 110, 205, 524, 72], 24), MonkeyState([], 4), MonkeyState([95, 107, 101, 557, 6567], 26)],
       [MonkeyState([8], 27), MonkeyState([20, 110, 205, 524, 72], 24), MonkeyState([], 4), MonkeyState([95, 107, 101, 557, 6567], 26)],
       [MonkeyState([8], 27), MonkeyState([20, 110, 205, 524, 72], 24), MonkeyState([38], 4), MonkeyState([95, 107, 101, 557, 6567], 26)],
       [MonkeyState([8, 70], 27), MonkeyState([20, 110, 205, 524, 72], 24), MonkeyState([38], 4), MonkeyState([95, 107, 101, 557, 6567], 26)],
       [MonkeyState([8, 70, 176], 27), MonkeyState([20, 110, 205, 524, 72], 24), MonkeyState([38], 4), MonkeyState([95, 107, 101, 557, 6567], 26)],
       [MonkeyState([8, 70, 176, 26], 27), MonkeyState([20, 110, 205, 524, 72], 24), MonkeyState([38], 4), MonkeyState([95, 107, 101, 557, 6567], 26)]]);
  }

  lemma ThirdTurn6_1()
    ensures Turn(ExampleRules(), [MonkeyState([], 27), MonkeyState([20, 110, 205, 524, 72], 24), MonkeyState([], 4), MonkeyState([95, 107, 101, 557, 6567], 26)], 1, Third)
      == [MonkeyState([8, 70, 176, 26], 27), MonkeyState([], 29), MonkeyState([38], 4), MonkeyState([95, 107, 101, 557, 6567], 26)]
  {
    ThirdThrows6_1();
    ThirdDeliveries6_1();
  }

  lemma ThirdThrows6_2()
    ensures InspectAll(Rule(Square, 13, 1, 3), [38], Third)
      == [Throw(481, 1)]
  {
  }

  lemma ThirdDeliveries6_2()
    ensures Lands([MonkeyState([8, 70, 176, 26], 27), MonkeyState([], 29), MonkeyState([38], 4), MonkeyState([95, 107, 101, 557, 6567], 26)], [Throw(481, 1)])
    ensures DeliverAll([MonkeyState([8, 70, 176, 26], 27), MonkeyState([], 29), MonkeyState([38], 4), MonkeyState([95, 107, 101, 557, 6567], 26)], [Throw(481, 1)])
      == [MonkeyState([8, 70, 176, 26], 27), MonkeyState([481], 29), MonkeyState([38], 4), MonkeyState([95, 107, 101, 557, 6567], 26)]
  {
    DeliverChain([MonkeyState([8, 70, 176, 26], 27), MonkeyState([], 29), MonkeyState([38], 4), MonkeyState([95, 107, 101, 557, 6567], 26)], [Throw(481, 1)],
      [[MonkeyState([8, 70, 176, 26], 27), MonkeyState([], 29), MonkeyState([38], 4), MonkeyState([95, 107, 101, 557, 6567], 26)],
       [MonkeyState([8, 70, 176, 26], 27), MonkeyState([481], 29), MonkeyState([38], 4), MonkeyState([95, 107, 101, 557, 6567], 26)]]);
  }

  lemma ThirdTurn6_2()
    ensures Turn(ExampleRules(), [MonkeyState([8, 70, 176, 26], 27), MonkeyState([], 29), MonkeyState([38], 4), MonkeyState([95, 107, 101, 557, 6567], 26)], 2, Third)
      == [MonkeyState([8, 70, 176, 26], 27), MonkeyState([481], 29), MonkeyState([], 5), MonkeyState([95, 107, 101, 557, 6567], 26)]
  {
    ThirdThrows6_2();
    ThirdDeliveries6_2();
  }

  lemma ThirdThrows6_3()
    ensures InspectAll(Rule(Add(3), 17, 0, 1), [95, 107, 101, 557, 6567], Third)
      == [Throw(32, 1), Throw(36, 1), Throw(34, 0), Throw(186, 1), Throw(2190, 1)]
  {
  }

  lemma ThirdDeliveries6_3()
    ensures Lands([MonkeyState([8, 70, 176, 26], 27), MonkeyState([481], 29), MonkeyState([], 5), MonkeyState([95, 107, 101, 557, 6567], 26)], [Throw(32, 1), Throw(36, 1), Throw(34, 0), Throw(186, 1), Throw(2190, 1)])
    ensures DeliverAll([MonkeyState([8, 70, 176, 26], 27), MonkeyState([481], 29), MonkeyState([], 5), MonkeyState([95, 107, 101, 557, 6567], 26)], [Throw(32, 1), Throw(36, 1), Throw(34, 0), Throw(186, 1), Throw(2190, 1)])
      == [MonkeyState([8, 70, 176, 26, 34], 27), MonkeyState([481, 32, 36, 186, 2190], 29), MonkeyState([], 5), MonkeyState([95, 107, 101, 557, 6567], 26)]
  {
    DeliverChain([MonkeyState([8, 70, 176, 26], 27), MonkeyState([481], 29), MonkeyState([], 5), MonkeyState([95, 107, 101, 557, 6567], 26)], [Throw(32, 1), Throw(36, 1), Throw(34, 0), Throw(186, 1), Throw(2190, 1)],
      [[MonkeyState([8, 70, 176, 26], 27), MonkeyState([481], 29), MonkeyState([], 5), MonkeyState([95, 107, 101, 557, 6567], 26)],
       [MonkeyState([8, 70, 176, 26], 27), MonkeyState([481, 32], 29), MonkeyState([], 5), MonkeyState([95, 107, 101, 557, 6567], 26)],
       [MonkeyState([8, 70, 176, 26], 27), MonkeyState([481, 32, 36], 29), MonkeyState([], 5), MonkeyState([95, 107, 101, 557, 6567], 26)],
       [MonkeyState([8, 70, 176, 26, 34], 27), MonkeyState([481, 32, 36], 29), MonkeyState([], 5), MonkeyState([95, 107, 101, 557, 6567], 26)],
       [MonkeyState([8, 70, 176, 26, 34], 27), MonkeyState([481, 32, 36, 186], 29), MonkeyState([], 5), MonkeyState([95, 107, 101, 557, 6567], 26)],
       [MonkeyState([8, 70, 176, 26, 34], 27), MonkeyState([481, 32, 36, 186, 2190], 29), MonkeyState([], 5), MonkeyState([95, 107, 101, 557, 6567], 26)]]);
  }

  lemma ThirdTurn6_3()
    ensures Turn(ExampleRules(), [MonkeyState([8, 70, 176, 26], 27), MonkeyState([481], 29), MonkeyState([], 5), MonkeyState([95, 107, 101, 557, 6567], 26)], 3, Third)
      == [MonkeyState([8, 70, 176, 26, 34], 27), MonkeyState([481, 32, 36, 186, 2190], 29), MonkeyState([], 5), MonkeyState([], 31)]
  {
    ThirdThrows6_3();
    ThirdDeliveries6_3();
  }

  lemma ThirdRound6(ms: seq<MonkeyState>)
    requires ms == [MonkeyState([15, 17, 16, 88, 1037], 22), MonkeyState([20, 110, 205, 524, 72], 24), MonkeyState([], 4), MonkeyState([], 26)]
    ensures Round(ExampleRules(), ms, Third)
      == [MonkeyState([8, 70, 176, 26, 34], 27), MonkeyState([481, 32, 36, 186, 2190], 29), MonkeyState([], 5), MonkeyState([], 31)]
  {
    ThirdTurn6_0(); ThirdTurn6_1(); ThirdTurn6_2(); ThirdTurn6_3();
    RoundBy(ExampleRules(), ms, Third,
      [MonkeyState([], 27), MonkeyState([20, 110, 205, 524, 72], 24), MonkeyState([], 4), MonkeyState([95, 107, 101, 557, 6567], 26)],
      [MonkeyState([8, 70, 176, 26], 27), MonkeyState([], 29), MonkeyState([38], 4), MonkeyState([95, 107, 101, 557, 6567], 26)],
      [MonkeyState([8, 70, 176, 26], 27), MonkeyState([481], 29), MonkeyState([], 5), MonkeyState([95, 107, 101, 557, 6567], 26)],
      [MonkeyState([8, 70, 176, 26, 34], 27), MonkeyState([481, 32, 36, 186, 2190], 29), MonkeyState([], 5), MonkeyState([], 31)]);
  }

  lemma ThirdThrows7_0()
    ensures InspectAll(Rule(Mul(19), 23, 2, 3), [8, 70, 176, 26, 34], Third)
      == [Throw(50, 3), Throw(443, 3), Throw(1114, 3), Throw(164, 3), Throw(215, 3)]
  {
  }

  lemma ThirdDeliveries7_0()
    ensures Lands([MonkeyState([8, 70, 176, 26, 34], 27), MonkeyState([481, 32, 36, 186, 2190], 29), MonkeyState([], 5), MonkeyState([], 31)], [Throw(50, 3), Throw(443, 3), Throw(1114, 3), Throw(164, 3), Throw(215, 3)])
    ensures DeliverAll([MonkeyState([8, 70, 176, 26, 34], 27), MonkeyState([481, 32, 36, 186, 2190], 29), MonkeyState([], 5), MonkeyState([], 31)], [Throw(50, 3), Throw(443, 3), Throw(1114, 3), Throw(164, 3), Throw(215, 3)])
      == [MonkeyState([8, 70, 176, 26, 34], 27), MonkeyState([481, 32, 36, 186, 2190], 29), MonkeyState([], 5), MonkeyState([50, 443, 1114, 164, 215], 31)]
  {
    DeliverChain([MonkeyState([8, 70, 176, 26, 34], 27), MonkeyState([481, 32, 36, 186, 2190], 29), MonkeyState([], 5), MonkeyState([], 31)], [Throw(50, 3), Throw(443, 3), Throw(1114, 3), Throw(164, 3), Throw(215, 3)],
      [[MonkeyState([8, 70, 176, 26, 34], 27), MonkeyState([481, 32, 36, 186, 2190], 29), MonkeyState([], 5), MonkeyState([], 31)],
       [MonkeyState([8, 70, 176, 26, 34], 27), MonkeyState([481, 32, 36, 186, 2190], 29), MonkeyState([], 5), MonkeyState([50], 31)],
       [MonkeyState([8, 70, 176, 26, 34], 27), MonkeyState([481, 32, 36, 186, 2190], 29), MonkeyState([], 5), MonkeyState([50, 443], 31)],
       [MonkeyState([8, 70, 176, 26, 34], 27), MonkeyState([481, 32, 36, 186, 2190], 29), MonkeyState([], 5), MonkeyState([50, 443, 1114], 31)],
       [MonkeyState([8, 70, 176, 26, 34], 27), MonkeyState([481, 32, 36, 186, 2190], 29), MonkeyState([], 5), MonkeyState([50, 443, 1114, 164], 31)],
       [MonkeyState([8, 70, 176, 26, 34], 27), MonkeyState([481, 32, 36, 186, 2190], 29), MonkeyState([], 5), MonkeyState([50, 443, 1114, 164, 215], 31)]]);
  }

  lemma ThirdTurn7_0()
    ensures Turn(ExampleRules(), [MonkeyState([8, 70, 176, 26, 34], 27), MonkeyState([481, 32, 36, 186, 2190], 29), MonkeyState([], 5), MonkeyState([], 31)], 0, Third)
      == [MonkeyState([], 32), MonkeyState([481, 32, 36, 186, 2190], 29), MonkeyState([], 5), MonkeyState([50, 443, 1114, 164, 215], 31)]
  {
    ThirdThrows7_0();
    ThirdDeliveries7_0();
  }

  lemma ThirdThrows7_1()
    ensures InspectAll(Rule(Add(6), 19, 2, 0), [481, 32, 36, 186, 2190], Third)
      == [Throw(162, 0), Throw(12, 0), Throw(14, 0), Throw(64, 0), Throw(732, 0)]
  {
  }

  lemma ThirdDeliveries7_1()
    ensures Lands([MonkeyState([], 32), MonkeyState([481, 32, 36, 186, 2190], 29), MonkeyState([], 5), MonkeyState([50, 443, 1114, 164, 215], 31)], [Throw(162, 0), Throw(12, 0), Throw(14, 0), Throw(64, 0), Throw(732, 0)])
    ensures DeliverAll([MonkeyState([], 32), MonkeyState([481, 32, 36, 186, 2190], 29), MonkeyState([], 5), MonkeyState([50, 443, 1114, 164, 215], 31)], [Throw(162, 0), Throw(12, 0), Throw(14, 0), Throw(64, 0), Throw(732, 0)])
      == [MonkeyState([162, 12, 14, 64, 732], 32), MonkeyState([481, 32, 36, 186, 2190], 29), MonkeyState([], 5), MonkeyState([50, 443, 1114, 164, 215], 31)]
  {
    DeliverChain([MonkeyState([], 32), MonkeyState([481, 32, 36, 186, 2190], 29), MonkeyState([], 5), MonkeyState([50, 443, 1114, 164, 215], 31)], [Throw(162, 0), Throw(12, 0), Throw(14, 0), Throw(64, 0), Throw(732, 0)],
      [[MonkeyState([], 32), MonkeyState([481, 32, 36, 186, 2190], 29), MonkeyState([], 5), MonkeyState([50, 443, 1114, 164, 215], 31)],
       [MonkeyState([162], 32), MonkeyState([481, 32, 36, 186, 2190], 29), MonkeyState([], 5), MonkeyState([50, 443, 1114, 164, 215], 31)],
       [MonkeyState([162, 12], 32), MonkeyState([481, 32, 36, 186, 2190], 29), MonkeyState([], 5), MonkeyState([50, 443, 1114, 164, 215], 31)],
       [MonkeyState([162, 12, 14], 32), MonkeyState([481, 32, 36, 186, 2190], 29), MonkeyState([], 5), MonkeyState([50, 443, 1114, 164, 215], 31)],
       [MonkeyState([162, 12, 14, 64], 32), MonkeyState([481, 32, 36, 186, 2190], 29), MonkeyState([], 5), MonkeyState([50, 443, 1114, 164, 215], 31)],
       [MonkeyState([162, 12, 14, 64, 732], 32), MonkeyState([481, 32, 36, 186, 2190], 29), MonkeyState([], 5), MonkeyState([50, 443, 1114, 164, 215], 31)]]);
  }

  lemma ThirdTurn7_1()
    ensures Turn(ExampleRules(), [MonkeyState([], 32), MonkeyState([481, 32, 36, 186, 2190], 29), MonkeyState([], 5), MonkeyState([50, 443, 1114, 164, 215], 31)], 1, Third)
      == [MonkeyState([162, 12, 14, 64, 732], 32), MonkeyState([], 34), MonkeyState([], 5), MonkeyState([50, 443, 1114, 164, 215], 31)]
  {
    ThirdThrows7_1();
    ThirdDeliveries7_1();
  }

  lemma ThirdThrows7_2()
    ensures InspectAll(Rule(Square, 13, 1, 3), [], Third)
      == []
  {
  }

  lemma ThirdDeliveries7_2()
    ensures Lands([MonkeyState([162, 12, 14, 64, 732], 32), MonkeyState([], 34), MonkeyState([], 5), MonkeyState([50, 443, 1114, 164, 215], 31)], [])
    ensures DeliverAll([MonkeyState([162, 12, 14, 64, 732], 32), MonkeyState([], 34), MonkeyState([], 5), MonkeyState([50, 443, 1114, 164, 215], 31)], [])
      == [MonkeyState([162, 12, 14, 64, 732], 32), MonkeyState([], 34), MonkeyState([], 5), MonkeyState([50, 443, 1114, 164, 215], 31)]
  {
    DeliverChain([MonkeyState([162, 12, 14, 64, 732], 32), MonkeyState([], 34), MonkeyState([], 5), MonkeyState([50, 443, 1114, 164, 215], 31)], [],
      [[MonkeyState([162, 12, 14, 64, 732], 32), MonkeyState([], 34), MonkeyState([], 5), MonkeyState([50, 443, 1114, 164, 215], 31)]]);
  }

  lemma ThirdTurn7_2()
    ensures Turn(ExampleRules(), [MonkeyState([162, 12, 14, 64, 732], 32), MonkeyState([], 34), MonkeyState([], 5), MonkeyState([50, 443, 1114, 164, 215], 31)], 2, Third)
      == [MonkeyState([162, 12, 14, 64, 732], 32), MonkeyState([], 34), MonkeyState([], 5), MonkeyState([50, 443, 1114, 164, 215], 31)]
  {
    ThirdThrows7_2();
    ThirdDeliveries7_2();
  }

  lemma ThirdThrows7_3()
    ensures InspectAll(Rule(Add(3), 17, 0, 1), [50, 443, 1114, 164, 215], Third)
      == [Throw(17, 0), Throw(148, 1), Throw(372, 1), Throw(55, 1), Throw(72, 1)]
  {
  }

  lemma ThirdDeliveries7_3()
    ensures Lands([MonkeyState([162, 12, 14, 64, 732], 32), MonkeyState([], 34), MonkeyState([], 5), MonkeyState([50, 443, 1114, 164, 215], 31)], [Throw(17, 0), Throw(148, 1), Throw(372, 1), Throw(55, 1), Throw(72, 1)])
    ensures DeliverAll([MonkeyState([162, 12, 14, 64, 732], 32), MonkeyState([], 34), MonkeyState([], 5), MonkeyState([50, 443, 1114, 164, 215], 31)], [Throw(17, 0), Throw(148, 1), Throw(372, 1), Throw(55, 1), Throw(72, 1)])
      == [MonkeyState([162, 12, 14, 64, 732, 17], 32), MonkeyState([148, 372, 55, 72], 34), MonkeyState([], 5), MonkeyState([50, 443, 1114, 164, 215], 31)]
  {
    DeliverChain([MonkeyState([162, 12, 14, 64, 732], 32), MonkeyState([], 34), MonkeyState([], 5), MonkeyState([50, 443, 1114, 164, 215], 31)], [Throw(17, 0), Throw(148, 1), Throw(372, 1), Throw(55, 1), Throw(72, 1)],
      [[MonkeyState([162, 12, 14, 64, 732], 32), MonkeyState([], 34), MonkeyState([], 5), MonkeyState([50, 443, 1114, 164, 215], 31)],
       [MonkeyState([162, 12, 14, 64, 732, 17], 32), MonkeyState([], 34), MonkeyState([], 5), MonkeyState([50, 443, 1114, 164, 215], 31)],
       [MonkeyState([162, 12, 14, 64, 732, 17], 32), MonkeyState([148], 34), MonkeyState([], 5), MonkeyState([50, 443, 1114, 164, 215], 31)],
       [MonkeyState([162, 12, 14, 64, 732, 17], 32), MonkeyState([148, 372], 34), MonkeyState([], 5), MonkeyState([50, 443, 1114, 164, 215], 31)],
       [MonkeyState([162, 12, 14, 64, 732, 17], 32), MonkeyState([148, 372, 55], 34), MonkeyState([], 5), MonkeyState([50, 443, 1114, 164, 215], 31)],
       [MonkeyState([162, 12, 14, 64, 732, 17], 32), MonkeyState([148, 372, 55, 72], 34), MonkeyState([], 5), MonkeyState([50, 443, 1114, 164, 215], 31)]]);
  }

  lemma ThirdTurn7_3()
    ensures Turn(ExampleRules(), [MonkeyState([162, 12, 14, 64, 732], 32), MonkeyState([], 34), MonkeyState([], 5), MonkeyState([50, 443, 1114, 164, 215], 31)], 3, Third)
      == [MonkeyState([162, 12, 14, 64, 732, 17], 32), MonkeyState([148, 372, 55, 72], 34), MonkeyState([], 5), MonkeyState([], 36)]
  {
    ThirdThrows7_3();
    ThirdDeliveries7_3();
  }

  lemma ThirdRound7(ms: seq<MonkeyState>)
    requires ms == [MonkeyState([8, 70, 176, 26, 34], 27), MonkeyState([481, 32, 36, 186, 2190], 29), MonkeyState([], 5), MonkeyState([], 31)]
    ensures Round(ExampleRules(), ms, Third)
      == [MonkeyState([162, 12, 14, 64, 732, 17], 32), MonkeyState([148, 372, 55, 72], 34), MonkeyState([], 5), MonkeyState([], 36)]
  {
    ThirdTurn7_0(); ThirdTurn7_1(); ThirdTurn7_2(); ThirdTurn7_3();
    RoundBy(ExampleRules(), ms, Third,
      [MonkeyState([], 32), MonkeyState([481, 32, 36, 186, 2190], 29), MonkeyState([], 5), MonkeyState([50, 443, 1114, 164, 215], 31)],
      [MonkeyState([162, 12, 14, 64, 732], 32), MonkeyState([], 34), MonkeyState([], 5), MonkeyState([50, 443, 1114, 164, 215], 31)],
      [MonkeyState([162, 12, 14, 64, 732], 32), MonkeyState([], 34), MonkeyState([], 5), MonkeyState([50, 443, 1114, 164, 215], 31)],
      [MonkeyState([162, 12, 14, 64, 732, 17], 32), MonkeyState([148, 372, 55, 72], 34), MonkeyState([], 5), MonkeyState([], 36)]);
  }

  lemma ThirdThrows8_0()
    ensures InspectAll(Rule(Mul(19), 23, 2, 3), [162, 12, 14, 64, 732, 17], Third)
      == [Throw(1026, 3), Throw(76, 3), Throw(88, 3), Throw(405, 3), Throw(4636, 3), Throw(107, 3)]
  {
  }

  lemma ThirdDeliveries8_0()
    ensures Lands([MonkeyState([162, 12, 14, 64, 732, 17], 32), MonkeyState([148, 372, 55, 72], 34), MonkeyState([], 5), MonkeyState([], 36)], [Throw(1026, 3), Throw(76, 3), Throw(88, 3), Throw(405, 3), Throw(4636, 3), Throw(107, 3)])
    ensures DeliverAll([MonkeyState([162, 12, 14, 64, 732, 17], 32), MonkeyState([148, 372, 55, 72], 34), MonkeyState([], 5), MonkeyState([], 36)], [Throw(1026, 3), Throw(76, 3), Throw(88, 3), Throw(405, 3), Throw(4636, 3), Throw(107, 3)])
      == [MonkeyState([162, 12, 14, 64, 732, 17], 32), MonkeyState([148, 372, 55, 72], 34), MonkeyState([], 5), MonkeyState([1026, 76, 88, 405, 4636, 107], 36)]
  {
    DeliverChain([MonkeyState([162, 12, 14, 64, 732, 17], 32), MonkeyState([148, 372, 55, 72], 34), MonkeyState([], 5), MonkeyState([], 36)], [Throw(1026, 3), Throw(76, 3), Throw(88, 3), Throw(405, 3), Throw(4636, 3), Throw(107, 3)],
      [[MonkeyState([162, 12, 14, 64, 732, 17], 32), MonkeyState([148, 372, 55, 72], 34), MonkeyState([], 5), MonkeyState([], 36)],
       [MonkeyState([162, 12, 14, 64, 732, 17], 32), MonkeyState([148, 372, 55, 72], 34), MonkeyState([], 5), MonkeyState([1026], 36)],
       [MonkeyState([162, 12, 14, 64, 732, 17], 32), MonkeyState([148, 372, 55, 72], 34), MonkeyState([], 5), MonkeyState([1026, 76], 36)],
       [MonkeyState([162, 12, 14, 64, 732, 17], 32), MonkeyState([148, 372, 55, 72], 34), MonkeyState([], 5), MonkeyState([1026, 76, 88], 36)],
       [MonkeyState([162, 12, 14, 64, 732, 17], 32), MonkeyState([148, 372, 55, 72], 34), MonkeyState([], 5), MonkeyState([1026, 76, 88, 405], 36)],
       [MonkeyState([162, 12, 14, 64, 732, 17], 32), MonkeyState([148, 372, 55, 72], 34), MonkeyState([], 5), MonkeyState([1026, 76, 88, 405, 4636], 36)],
       [MonkeyState([162, 12, 14, 64, 732, 17], 32), MonkeyState([148, 372, 55, 72], 34), MonkeyState([], 5), MonkeyState([1026, 76, 88, 405, 4636, 107], 36)]]);
  }

  lemma ThirdTurn8_0()
    ensures Turn(ExampleRules(), [MonkeyState([162, 12, 14, 64, 732, 17], 32), MonkeyState([148, 372, 55, 72], 34), MonkeyState([], 5), MonkeyState([], 36)], 0, Third)
      == [MonkeyState([], 38), MonkeyState([148, 372, 55, 72], 34), MonkeyState([], 5), MonkeyState([1026, 76, 88, 405, 4636, 107], 36)]
  {
    ThirdThrows8_0();
    ThirdDeliveries8_0();
  }

  lemma ThirdThrows8_1()
    ensures InspectAll(Rule(Add(6), 19, 2, 0), [148, 372, 55, 72], Third)
      == [Throw(51, 0), Throw(126, 0), Throw(20, 0), Throw(26, 0)]
  {
  }

  lemma ThirdDeliveries8_1()
    ensures Lands([MonkeyState([], 38), MonkeyState([148, 372, 55, 72], 34), MonkeyState([], 5), MonkeyState([1026, 76, 88, 405, 4636, 107], 36)], [Throw(51, 0), Throw(126, 0), Throw(20, 0), Throw(26, 0)])
    ensures DeliverAll([MonkeyState([], 38), MonkeyState([148, 372, 55, 72], 34), MonkeyState([], 5), MonkeyState([1026, 76, 88, 405, 4636, 107], 36)], [Throw(51, 0), Throw(126, 0), Throw(20, 0), Throw(26, 0)])
      == [MonkeyState([51, 126, 20, 26], 38), MonkeyState([148, 372, 55, 72], 34), MonkeyState([], 5), MonkeyState([1026, 76, 88, 405, 4636, 107], 36)]
  {
    DeliverChain([MonkeyState([], 38), MonkeyState([148, 372, 55, 72], 34), MonkeyState([], 5), MonkeyState([1026, 76, 88, 405, 4636, 107], 36)], [Throw(51, 0), Throw(126, 0), Throw(20, 0), Throw(26, 0)],
      [[MonkeyState([], 38), MonkeyState([148, 372, 55, 72], 34), MonkeyState([], 5), MonkeyState([1026, 76, 88, 405, 4636, 107], 36)],
       [MonkeyState([51], 38), MonkeyState([148, 372, 55, 72], 34), MonkeyState([], 5), MonkeyState([1026, 76, 88, 405, 4636, 107], 36)],
       [MonkeyState([51, 126], 38), MonkeyState([148, 372, 55, 72], 34), MonkeyState([], 5), MonkeyState([1026, 76, 88, 405, 4636, 107], 36)],
       [MonkeyState([51, 126, 20], 38), MonkeyState([148, 372, 55, 72], 34), MonkeyState([], 5), MonkeyState([1026, 76, 88, 405, 4636, 107], 36)],
       [MonkeyState([51, 126, 20, 26], 38), MonkeyState([148, 372, 55, 72], 34), MonkeyState([], 5), MonkeyState([1026, 76, 88, 405, 4636, 107], 36)]]);
  }

  lemma ThirdTurn8_1()
    ensures Turn(ExampleRules(), [MonkeyState([], 38), MonkeyState([148, 372, 55, 72], 34), MonkeyState([], 5), MonkeyState([1026, 76, 88, 405, 4636, 107], 36)], 1, Third)
      == [MonkeyState([51, 126, 20, 26], 38), MonkeyState([], 38), MonkeyState([], 5), MonkeyState([1026, 76, 88, 405, 4636, 107], 36)]
  {
    ThirdThrows8_1();
    ThirdDeliveries8_1();
  }

  lemma ThirdThrows8_2()
    ensures InspectAll(Rule(Square, 13, 1, 3), [], Third)
      == []
  {
  }

  lemma ThirdDeliveries8_2()
    ensures Lands([MonkeyState([51, 126, 20, 26], 38), MonkeyState([], 38), MonkeyState([], 5), MonkeyState([1026, 76, 88, 405, 4636, 107], 36)], [])
    ensures DeliverAll([MonkeyState([51, 126, 20, 26], 38), MonkeyState([], 38), MonkeyState([], 5), MonkeyState([1026, 76, 88, 405, 4636, 107], 36)], [])
      == [MonkeyState([51, 126, 20, 26], 38), MonkeyState([], 38), MonkeyState([], 5), MonkeyState([1026, 76, 88, 405, 4636, 107], 36)]
  {
    DeliverChain([MonkeyState([51, 126, 20, 26], 38), MonkeyState([], 38), MonkeyState([], 5), MonkeyState([1026, 76, 88, 405, 4636, 107], 36)], [],
      [[MonkeyState([51, 126, 20, 26], 38), MonkeyState([], 38), MonkeyState([], 5), MonkeyState([1026, 76, 88, 405, 4636, 107], 36)]]);
  }

  lemma ThirdTurn8_2()
    ensures Turn(ExampleRules(), [MonkeyState([51, 126, 20, 26], 38), MonkeyState([], 38), MonkeyState([], 5), MonkeyState([1026, 76, 88, 405, 4636, 107], 36)], 2, Third)
      == [MonkeyState([51, 126, 20, 26], 38), MonkeyState([], 38), MonkeyState([], 5), MonkeyState([1026, 76, 88, 405, 4636, 107], 36)]
  {
    ThirdThrows8_2();
    ThirdDeliveries8_2();
  }

  lemma ThirdThrows8_3()
    ensures InspectAll(Rule(Add(3), 17, 0, 1), [1026, 76, 88, 405, 4636, 107], Third)
      == [Throw(343, 1), Throw(26, 1), Throw(30, 1), Throw(136, 0), Throw(1546, 1), Throw(36, 1)]
  {
  }

  lemma ThirdDeliveries8_3()
    ensures Lands([MonkeyState([51, 126, 20, 26], 38), MonkeyState([], 38), MonkeyState([], 5), MonkeyState([1026, 76, 88, 405, 4636, 107], 36)], [Throw(343, 1), Throw(26, 1), Throw(30, 1), Throw(136, 0), Throw(1546, 1), Throw(36, 1)])
    ensures DeliverAll([MonkeyState([51, 126, 20, 26], 38), MonkeyState([], 38), MonkeyState([], 5), MonkeyState([1026, 76, 88, 405, 4636, 107], 36)], [Throw(343, 1), Throw(26, 1), Throw(30, 1), Throw(136, 0), Throw(1546, 1), Throw(36, 1)])
      == [MonkeyState([51, 126, 20, 26, 136], 38), MonkeyState([343, 26, 30, 1546, 36], 38), MonkeyState([], 5), MonkeyState([1026, 76, 88, 405, 4636, 107], 36)]
  {
    DeliverChain([MonkeyState([51, 126, 20, 26], 38), MonkeyState([], 38), MonkeyState([], 5), MonkeyState([1026, 76, 88, 405, 4636, 107], 36)], [Throw(343, 1), Throw(26, 1), Throw(30, 1), Throw(136, 0), Throw(1546, 1), Throw(36, 1)],
      [[MonkeyState([51, 126, 20, 26], 38), MonkeyState([], 38), MonkeyState([], 5), MonkeyState([1026, 76, 88, 405, 4636, 107], 36)],
       [MonkeyState([51, 126, 20, 26], 38), MonkeyState([343], 38), MonkeyState([], 5), MonkeyState([1026, 76, 88, 405, 4636, 107], 36)],
       [MonkeyState([51, 126, 20, 26], 38), MonkeyState([343, 26], 38), MonkeyState([], 5), MonkeyState([1026, 76, 88, 405, 4636, 107], 36)],
       [MonkeyState([51, 126, 20, 26], 38), MonkeyState([343, 26, 30], 38), MonkeyState([], 5), MonkeyState([1026, 76, 88, 405, 4636, 107], 36)],
       [MonkeyState([51, 126, 20, 26, 136], 38), MonkeyState([343, 26, 30], 38), MonkeyState([], 5), MonkeyState([1026, 76, 88, 405, 4636, 107], 36)],
       [MonkeyState([51, 126, 20, 26, 136], 38), MonkeyState([343, 26, 30, 1546], 38), MonkeyState([], 5), MonkeyState([1026, 76, 88, 405, 4636, 107], 36)],
       [MonkeyState([51, 126, 20, 26, 136], 38), MonkeyState([343, 26, 30, 1546, 36], 38), MonkeyState([], 5), MonkeyState([1026, 76, 88, 405, 4636, 107], 36)]]);
  }

  lemma ThirdTurn8_3()
    ensures Turn(ExampleRules(), [MonkeyState([51, 126, 20, 26], 38), MonkeyState([], 38), MonkeyState([], 5), MonkeyState([1026, 76, 88, 405, 4636, 107], 36)], 3, Third)
      == [MonkeyState([51, 126, 20, 26, 136], 38), MonkeyState([343, 26, 30, 1546, 36], 38), MonkeyState([], 5), MonkeyState([], 42)]
  {
    ThirdThrows8_3();
    ThirdDeliveries8_3();
  }

  lemma ThirdRound8(ms: seq<MonkeyState>)
    requires ms == [MonkeyState([162, 12, 14, 64, 732, 17], 32), MonkeyState([148, 372, 55, 72], 34), MonkeyState([], 5), MonkeyState([], 36)]
    ensures Round(ExampleRules(), ms, Third)
      == [MonkeyState([51, 126, 20, 26, 136], 38), MonkeyState([343, 26, 30, 1546, 36], 38), MonkeyState([], 5), MonkeyState([], 42)]
  {
    ThirdTurn8_0(); ThirdTurn8_1(); ThirdTurn8_2(); ThirdTurn8_3();
    RoundBy(ExampleRules(), ms, Third,
      [MonkeyState([], 38), MonkeyState([148, 372, 55, 72], 34), MonkeyState([], 5), MonkeyState([1026, 76, 88, 405, 4636, 107], 36)],
      [MonkeyState([51, 126, 20, 26], 38), MonkeyState([], 38), MonkeyState([], 5), MonkeyState([1026, 76, 88, 405, 4636, 107], 36)],
      [MonkeyState([51, 126, 20, 26], 38), MonkeyState([], 38), MonkeyState([], 5), MonkeyState([1026, 76, 88, 405, 4636, 107], 36)],
      [MonkeyState([51, 126, 20, 26, 136], 38), MonkeyState([343, 26, 30, 1546, 36], 38), MonkeyState([], 5), MonkeyState([], 42)]);
  }

  lemma ThirdThrows9_0()
    ensures InspectAll(Rule(Mul(19), 23, 2, 3), [51, 126, 20, 26, 136], Third)
      == [Throw(323, 3), Throw(798, 3), Throw(126, 3), Throw(164, 3), Throw(861, 3)]
  {
  }

  lemma ThirdDeliveries9_0()
    ensures Lands([MonkeyState([51, 126, 20, 26, 136], 38), MonkeyState([343, 26, 30, 1546, 36], 38), MonkeyState([], 5), MonkeyState([], 42)], [Throw(323, 3), Throw(798, 3), Throw(126, 3), Throw(164, 3), Throw(861, 3)])
    ensures DeliverAll([MonkeyState([51, 126, 20, 26, 136], 38), MonkeyState([343, 26, 30, 1546, 36], 38), MonkeyState([], 5), MonkeyState([], 42)], [Throw(323, 3), Throw(798, 3), Throw(126, 3), Throw(164, 3), Throw(861, 3)])
      == [MonkeyState([51, 126, 20, 26, 136], 38), MonkeyState([343, 26, 30, 1546, 36], 38), MonkeyState([], 5), MonkeyState([323, 798, 126, 164, 861], 42)]
  {
    DeliverChain([MonkeyState([51, 126, 20, 26, 136], 38), MonkeyState([343, 26, 30, 1546, 36], 38), MonkeyState([], 5), MonkeyState([], 42)], [Throw(323, 3), Throw(798, 3), Throw(126, 3), Throw(164, 3), Throw(861, 3)],
      [[MonkeyState([51, 126, 20, 26, 136], 38), MonkeyState([343, 26, 30, 1546, 36], 38), MonkeyState([], 5), MonkeyState([], 42)],
       [MonkeyState([51, 126, 20, 26, 136], 38), MonkeyState([343, 26, 30, 1546, 36], 38), MonkeyState([], 5), MonkeyState([323], 42)],
       [MonkeyState([51, 126, 20, 26, 136], 38), MonkeyState([343, 26, 30, 1546, 36], 38), MonkeyState([], 5), MonkeyState([323, 798], 42)],
       [MonkeyState([51, 126, 20, 26, 136], 38), MonkeyState([343, 26, 30, 1546, 36], 38), MonkeyState([], 5), MonkeyState([323, 798, 126], 42)],
       [MonkeyState([51, 126, 20, 26, 136], 38), MonkeyState([343, 26, 30, 1546, 36], 38), MonkeyState([], 5), MonkeyState([323, 798, 126, 164], 42)],
       [MonkeyState([51, 126, 20, 26, 136], 38), MonkeyState([343, 26, 30, 1546, 36], 38), MonkeyState([], 5), MonkeyState([323, 798, 126, 164, 861], 42)]]);
  }

  lemma ThirdTurn9_0()
    ensures Turn(ExampleRules(), [MonkeyState([51, 126, 20, 26, 136], 38), MonkeyState([343, 26, 30, 1546, 36], 38), MonkeyState([], 5), MonkeyState([], 42)], 0, Third)
      == [MonkeyState([], 43), MonkeyState([343, 26, 30, 1546, 36], 38), MonkeyState([], 5), MonkeyState([323, 798, 126, 164, 861], 42)]
  {
    ThirdThrows9_0();
    ThirdDeliveries9_0();
  }

  lemma ThirdThrows9_1()
    ensures InspectAll(Rule(Add(6), 19, 2, 0), [343, 26, 30, 1546, 36], Third)
      == [Throw(116, 0), Throw(10, 0), Throw(12, 0), Throw(517, 0), Throw(14, 0)]
  {
  }

  lemma ThirdDeliveries9_1()
    ensures Lands([MonkeyState([], 43), MonkeyState([343, 26, 30, 1546, 36], 38), MonkeyState([], 5), MonkeyState([323, 798, 126, 164, 861], 42)], [Throw(116, 0), Throw(10, 0), Throw(12, 0), Throw(517, 0), Throw(14, 0)])
    ensures DeliverAll([MonkeyState([], 43), MonkeyState([343, 26, 30, 1546, 36], 38), MonkeyState([], 5), MonkeyState([323, 798, 126, 164, 861], 42)], [Throw(116, 0), Throw(10, 0), Throw(12, 0), Throw(517, 0), Throw(14, 0)])
      == [MonkeyState([116, 10, 12, 517, 14], 43), MonkeyState([343, 26, 30, 1546, 36], 38), MonkeyState([], 5), MonkeyState([323, 798, 126, 164, 861], 42)]
  {
    DeliverChain([MonkeyState([], 43), MonkeyState([343, 26, 30, 1546, 36], 38), MonkeyState([], 5), MonkeyState([323, 798, 126, 164, 861], 42)], [Throw(116, 0), Throw(10, 0), Throw(12, 0), Throw(517, 0), Throw(14, 0)],
      [[MonkeyState([], 43), MonkeyState([343, 26, 30, 1546, 36], 38), MonkeyState([], 5), MonkeyState([323, 798, 126, 164, 861], 42)],
       [MonkeyState([116], 43), MonkeyState([343, 26, 30, 1546, 36], 38), MonkeyState([], 5), MonkeyState([323, 798, 126, 164, 861], 42)],
       [MonkeyState([116, 10], 43), MonkeyState([343, 26, 30, 1546, 36], 38), MonkeyState([], 5), MonkeyState([323, 798, 126, 164, 861], 42)],
       [MonkeyState([116, 10, 12], 43), MonkeyState([343, 26, 30, 1546, 36], 38), MonkeyState([], 5), MonkeyState([323, 798, 126, 164, 861], 42)],
       [MonkeyState([116, 10, 12, 517], 43), MonkeyState([343, 26, 30, 1546, 36], 38), MonkeyState([], 5), MonkeyState([323, 798, 126, 164, 861], 42)],
       [MonkeyState([116, 10, 12, 517, 14], 43), MonkeyState([343, 26, 30, 1546, 36], 38), MonkeyState([], 5), MonkeyState([323, 798, 126, 164, 861], 42)]]);
  }

  lemma ThirdTurn9_1()
    ensures Turn(ExampleRules(), [MonkeyState([], 43), MonkeyState([343, 26, 30, 1546, 36], 38), MonkeyState([], 5), MonkeyState([323, 798, 126, 164, 861], 42)], 1, Third)
      == [MonkeyState([116, 10, 12, 517, 14], 43), MonkeyState([], 43), MonkeyState([], 5), MonkeyState([323, 798, 126, 164, 861], 42)]
  {
    ThirdThrows9_1();
    ThirdDeliveries9_1();
  }

  lemma ThirdThrows9_2()
    ensures InspectAll(Rule(Square, 13, 1, 3), [], Third)
      == []
  {
  }

  lemma ThirdDeliveries9_2()
    ensures Lands([MonkeyState([116, 10, 12, 517, 14], 43), MonkeyState([], 43), MonkeyState([], 5), MonkeyState([323, 798, 126, 164, 861], 42)], [])
    ensures DeliverAll([MonkeyState([116, 10, 12, 517, 14], 43), MonkeyState([], 43), MonkeyState([], 5), MonkeyState([323, 798, 126, 164, 861], 42)], [])
      == [MonkeyState([116, 10, 12, 517, 14], 43), MonkeyState([], 43), MonkeyState([], 5), MonkeyState([323, 798, 126, 164, 861], 42)]
  {
    DeliverChain([MonkeyState([116, 10, 12, 517, 14], 43), MonkeyState([], 43), MonkeyState([], 5), MonkeyState([323, 798, 126, 164, 861], 42)], [],
      [[MonkeyState([116, 10, 12, 517, 14], 43), MonkeyState([], 43), MonkeyState([], 5), MonkeyState([323, 798, 126, 164, 861], 42)]]);
  }

  lemma ThirdTurn9_2()
    ensures Turn(ExampleRules(), [MonkeyState([116, 10, 12, 517, 14], 43), MonkeyState([], 43), MonkeyState([], 5), MonkeyState([323, 798, 126, 164, 861], 42)], 2, Third)
      == [MonkeyState([116, 10, 12, 517, 14], 43), MonkeyState([], 43), MonkeyState([], 5), MonkeyState([323, 798, 126, 164, 861], 42)]
  {
    ThirdThrows9_2();
    ThirdDeliveries9_2();
  }

  lemma ThirdThrows9_3()
    ensures InspectAll(Rule(Add(3), 17, 0, 1), [323, 798, 126, 164, 861], Third)
      == [Throw(108, 1), Throw(267, 1), Throw(43, 1), Throw(55, 1), Throw(288, 1)]
  {
  }

  lemma ThirdDeliveries9_3()
    ensures Lands([MonkeyState([116, 10, 12, 517, 14], 43), MonkeyState([], 43), MonkeyState([], 5), MonkeyState([323, 798, 126, 164, 861], 42)], [Throw(108, 1), Throw(267, 1), Throw(43, 1), Throw(55, 1), Throw(288, 1)])
    ensures DeliverAll([MonkeyState([116, 10, 12, 517, 14], 43), MonkeyState([], 43), MonkeyState([], 5), MonkeyState([323, 798, 126, 164, 861], 42)], [Throw(108, 1), Throw(267, 1), Throw(43, 1), Throw(55, 1), Throw(288, 1)])
      == [MonkeyState([116, 10, 12, 517, 14], 43), MonkeyState([108, 267, 43, 55, 288], 43), MonkeyState([], 5), MonkeyState([323, 798, 126, 164, 861], 42)]
  {
    DeliverChain([MonkeyState([116, 10, 12, 517, 14], 43), MonkeyState([], 43), MonkeyState([], 5), MonkeyState([323, 798, 126, 164, 861], 42)], [Throw(108, 1), Throw(267, 1), Throw(43, 1), Throw(55, 1), Throw(288, 1)],
      [[MonkeyState([116, 10, 12, 517, 14], 43), MonkeyState([], 43), MonkeyState([], 5), MonkeyState([323, 798, 126, 164, 861], 42)],
       [MonkeyState([116, 10, 12, 517, 14], 43), MonkeyState([108], 43), MonkeyState([], 5), MonkeyState([323, 798, 126, 164, 861], 42)],
       [MonkeyState([116, 10, 12, 517, 14], 43), MonkeyState([108, 267], 43), MonkeyState([], 5), MonkeyState([323, 798, 126, 164, 861], 42)],
       [MonkeyState([116, 10, 12, 517, 14], 43), MonkeyState([108, 267, 43], 43), MonkeyState([], 5), MonkeyState([323, 798, 126, 164, 861], 42)],
       [MonkeyState([116, 10, 12, 517, 14], 43), MonkeyState([108, 267, 43, 55], 43), MonkeyState([], 5), MonkeyState([323, 798, 126, 164, 861], 42)],
       [MonkeyState([116, 10, 12, 517, 14], 43), MonkeyState([108, 267, 43, 55, 288], 43), MonkeyState([], 5), MonkeyState([323, 798, 126, 164, 861], 42)]]);
  }

  lemma ThirdTurn9_3()
    ensures Turn(ExampleRules(), [MonkeyState([116, 10, 12, 517, 14], 43), MonkeyState([], 43), MonkeyState([], 5), MonkeyState([323, 798, 126, 164, 861], 42)], 3, Third)
      == [MonkeyState([116, 10, 12, 517, 14], 43), MonkeyState([108, 267, 43, 55, 288], 43), MonkeyState([], 5), MonkeyState([], 47)]
  {
    ThirdThrows9_3();
    ThirdDeliveries9_3();
  }

  lemma ThirdRound9(ms: seq<MonkeyState>)
    requires ms == [MonkeyState([51, 126, 20, 26, 136], 38), MonkeyState([343, 26, 30, 1546, 36], 38), MonkeyState([], 5), MonkeyState([], 42)]
    ensures Round(ExampleRules(), ms, Third)
      == [MonkeyState([116, 10, 12, 517, 14], 43), MonkeyState([108, 267, 43, 55, 288], 43), MonkeyState([], 5), MonkeyState([], 47)]
  {
    ThirdTurn9_0(); ThirdTurn9_1(); ThirdTurn9_2(); ThirdTurn9_3();
    RoundBy(ExampleRules(), ms, Third,
      [MonkeyState([], 43), MonkeyState([343, 26, 30, 1546, 36], 38), MonkeyState([], 5), MonkeyState([323, 798, 126, 164, 861], 42)],
      [MonkeyState([116, 10, 12, 517, 14], 43), MonkeyState([], 43), MonkeyState([], 5), MonkeyState([323, 798, 126, 164, 861], 42)],
      [MonkeyState([116, 10, 12, 517, 14], 43), MonkeyState([], 43), MonkeyState([], 5), MonkeyState([323, 798, 126, 164, 861], 42)],
      [MonkeyState([116, 10, 12, 517, 14], 43), MonkeyState([108, 267, 43, 55, 288], 43), MonkeyState([], 5), MonkeyState([], 47)]);
  }

  lemma ThirdThrows10_0()
    ensures InspectAll(Rule(Mul(19), 23, 2, 3), [116, 10, 12, 517, 14], Third)
      == [Throw(734, 3), Throw(63, 3), Throw(76, 3), Throw(3274, 3), Throw(88, 3)]
  {
  }

  lemma ThirdDeliveries10_0()
    ensures Lands([MonkeyState([116, 10, 12, 517, 14], 43), MonkeyState([108, 267, 43, 55, 288], 43), MonkeyState([], 5), MonkeyState([], 47)], [Throw(734, 3), Throw(63, 3), Throw(76, 3), Throw(3274, 3), Throw(88, 3)])
    ensures DeliverAll([MonkeyState([116, 10, 12, 517, 14], 43), MonkeyState([108, 267, 43, 55, 288], 43), MonkeyState([], 5), MonkeyState([], 47)], [Throw(734, 3), Throw(63, 3), Throw(76, 3), Throw(3274, 3), Throw(88, 3)])
      == [MonkeyState([116, 10, 12, 517, 14], 43), MonkeyState([108, 267, 43, 55, 288], 43), MonkeyState([], 5), MonkeyState([734, 63, 76, 3274, 88], 47)]
  {
    DeliverChain([MonkeyState([116, 10, 12, 517, 14], 43), MonkeyState([108, 267, 43, 55, 288], 43), MonkeyState([], 5), MonkeyState([], 47)], [Throw(734, 3), Throw(63, 3), Throw(76, 3), Throw(3274, 3), Throw(88, 3)],
      [[MonkeyState([116, 10, 12, 517, 14], 43), MonkeyState([108, 267, 43, 55, 288], 43), MonkeyState([], 5), MonkeyState([], 47)],
       [MonkeyState([116, 10, 12, 517, 14], 43), MonkeyState([108, 267, 43, 55, 288], 43), MonkeyState([], 5), MonkeyState([734], 47)],
       [MonkeyState([116, 10, 12, 517, 14], 43), MonkeyState([108, 267, 43, 55, 288], 43), MonkeyState([], 5), MonkeyState([734, 63], 47)],
       [MonkeyState([116, 10, 12, 517, 14], 43), MonkeyState([108, 267, 43, 55, 288], 43), MonkeyState([], 5), MonkeyState([734, 63, 76], 47)],
       [MonkeyState([116, 10, 12, 517, 14], 43), MonkeyState([108, 267, 43, 55, 288], 43), MonkeyState([], 5), MonkeyState([734, 63, 76, 3274], 47)],
       [MonkeyState([116, 10, 12, 517, 14], 43), MonkeyState([108, 267, 43, 55, 288], 43), MonkeyState([], 5), MonkeyState([734, 63, 76, 3274, 88], 47)]]);
  }

  lemma ThirdTurn10_0()
    ensures Turn(ExampleRules(), [MonkeyState([116, 10, 12, 517, 14], 43), MonkeyState([108, 267, 43, 55, 288], 43), MonkeyState([], 5), MonkeyState([], 47)], 0, Third)
      == [MonkeyState([], 48), MonkeyState([108, 267, 43, 55, 288], 43), MonkeyState([], 5), MonkeyState([734, 63, 76, 3274, 88], 47)]
  {
    ThirdThrows10_0();
    ThirdDeliveries10_0();
  }

  lemma ThirdThrows10_1()
    ensures InspectAll(Rule(Add(6), 19, 2, 0), [108, 267, 43, 55, 288], Third)
      == [Throw(38, 2), Throw(91, 0), Throw(16, 0), Throw(20, 0), Throw(98, 0)]
  {
  }

  lemma ThirdDeliveries10_1()
    ensures Lands([MonkeyState([], 48), MonkeyState([108, 267, 43, 55, 288], 43), MonkeyState([], 5), MonkeyState([734, 63, 76, 3274, 88], 47)], [Throw(38, 2), Throw(91, 0), Throw(16, 0), Throw(20, 0), Throw(98, 0)])
    ensures DeliverAll([MonkeyState([], 48), MonkeyState([108, 267, 43, 55, 288], 43), MonkeyState([], 5), MonkeyState([734, 63, 76, 3274, 88], 47)], [Throw(38, 2), Throw(91, 0), Throw(16, 0), Throw(20, 0), Throw(98, 0)])
      == [MonkeyState([91, 16, 20, 98], 48), MonkeyState([108, 267, 43, 55, 288], 43), MonkeyState([38], 5), MonkeyState([734, 63, 76, 3274, 88], 47)]
  {
    DeliverChain([MonkeyState([], 48), MonkeyState([108, 267, 43, 55, 288], 43), MonkeyState([], 5), MonkeyState([734, 63, 76, 3274, 88], 47)], [Throw(38, 2), Throw(91, 0), Throw(16, 0), Throw(20, 0), Throw(98, 0)],
      [[MonkeyState([], 48), MonkeyState([108, 267, 43, 55, 288], 43), MonkeyState([], 5), MonkeyState([734, 63, 76, 3274, 88], 47)],
       [MonkeyState([], 48), MonkeyState([108, 267, 43, 55, 288], 43), MonkeyState([38], 5), MonkeyState([734, 63, 76, 3274, 88], 47)],
       [MonkeyState([91], 48), MonkeyState([108, 267, 43, 55, 288], 43), MonkeyState([38], 5), MonkeyState([734, 63, 76, 3274, 88], 47)],
       [MonkeyState([91, 16], 48), MonkeyState([108, 267, 43, 55, 288], 43), MonkeyState([38], 5), MonkeyState([734, 63, 76, 3274, 88], 47)],
       [MonkeyState([91, 16, 20], 48), MonkeyState([108, 267, 43, 55, 288], 43), MonkeyState([38], 5), MonkeyState([734, 63, 76, 3274, 88], 47)],
       [MonkeyState([91, 16, 20, 98], 48), MonkeyState([108, 267, 43, 55, 288], 43), MonkeyState([38], 5), MonkeyState([734, 63, 76, 3274, 88], 47)]]);
  }

  lemma ThirdTurn10_1()
    ensures Turn(ExampleRules(), [MonkeyState([], 48), MonkeyState([108, 267, 43, 55, 288], 43), MonkeyState([], 5), MonkeyState([734, 63, 76, 3274, 88], 47)], 1, Third)
      == [MonkeyState([91, 16, 20, 98], 48), MonkeyState([], 48), MonkeyState([38], 5), MonkeyState([734, 63, 76, 3274, 88], 47)]
  {
    ThirdThrows10_1();
    ThirdDeliveries10_1();
  }

  lemma ThirdThrows10_2()
    ensures InspectAll(Rule(Square, 13, 1, 3), [38], Third)
      == [Throw(481, 1)]
  {
  }

  lemma ThirdDeliveries10_2()
    ensures Lands([MonkeyState([91, 16, 20, 98], 48), MonkeyState([], 48), MonkeyState([38], 5), MonkeyState([734, 63, 76, 3274, 88], 47)], [Throw(481, 1)])
    ensures DeliverAll([MonkeyState([91, 16, 20, 98], 48), MonkeyState([], 48), MonkeyState([38], 5), MonkeyState([734, 63, 76, 3274, 88], 47)], [Throw(481, 1)])
      == [MonkeyState([91, 16, 20, 98], 48), MonkeyState([481], 48), MonkeyState([38], 5), MonkeyState([734, 63, 76, 3274, 88], 47)]
  {
    DeliverChain([MonkeyState([91, 16, 20, 98], 48), MonkeyState([], 48), MonkeyState([38], 5), MonkeyState([734, 63, 76, 3274, 88], 47)], [Throw(481, 1)],
      [[MonkeyState([91, 16, 20, 98], 48), MonkeyState([], 48), MonkeyState([38], 5), MonkeyState([734, 63, 76, 3274, 88], 47)],
       [MonkeyState([91, 16, 20, 98], 48), MonkeyState([481], 48), MonkeyState([38], 5), MonkeyState([734, 63, 76, 3274, 88], 47)]]);
  }

  lemma ThirdTurn10_2()
    ensures Turn(ExampleRules(), [MonkeyState([91, 16, 20, 98], 48), MonkeyState([], 48), MonkeyState([38], 5), MonkeyState([734, 63, 76, 3274, 88], 47)], 2, Third)
      == [MonkeyState([91, 16, 20, 98], 48), MonkeyState([481], 48), MonkeyState([], 6), MonkeyState([734, 63, 76, 3274, 88], 47)]
  {
    ThirdThrows10_2();
    ThirdDeliveries10_2();
  }

  lemma ThirdThrows10_3()
    ensures InspectAll(Rule(Add(3), 17, 0, 1), [734, 63, 76, 3274, 88], Third)
      == [Throw(245, 1), Throw(22, 1), Throw(26, 1), Throw(1092, 1), Throw(30, 1)]
  {
  }

  lemma ThirdDeliveries10_3()
    ensures Lands([MonkeyState([91, 16, 20, 98], 48), MonkeyState([481], 48), MonkeyState([], 6), MonkeyState([734, 63, 76, 3274, 88], 47)], [Throw(245, 1), Throw(22, 1), Throw(26, 1), Throw(1092, 1), Throw(30, 1)])
    ensures DeliverAll([MonkeyState([91, 16, 20, 98], 48), MonkeyState([481], 48), MonkeyState([], 6), MonkeyState([734, 63, 76, 3274, 88], 47)], [Throw(245, 1), Throw(22, 1), Throw(26, 1), Throw(1092, 1), Throw(30, 1)])
      == [MonkeyState([91, 16, 20, 98], 48), MonkeyState([481, 245, 22, 26, 1092, 30], 48), MonkeyState([], 6), MonkeyState([734, 63, 76, 3274, 88], 47)]
  {
    DeliverChain([MonkeyState([91, 16, 20, 98], 48), MonkeyState([481], 48), MonkeyState([], 6), MonkeyState([734, 63, 76, 3274, 88], 47)], [Throw(245, 1), Throw(22, 1), Throw(26, 1), Throw(1092, 1), Throw(30, 1)],
      [[MonkeyState([91, 16, 20, 98], 48), MonkeyState([481], 48), MonkeyState([], 6), MonkeyState([734, 63, 76, 3274, 88], 47)],
       [MonkeyState([91, 16, 20, 98], 48), MonkeyState([481, 245], 48), MonkeyState([], 6), MonkeyState([734, 63, 76, 3274, 88], 47)],
       [MonkeyState([91, 16, 20, 98], 48), MonkeyState([481, 245, 22], 48), MonkeyState([], 6), MonkeyState([734, 63, 76, 3274, 88], 47)],
       [MonkeyState([91, 16, 20, 98], 48), MonkeyState([481, 245, 22, 26], 48), MonkeyState([], 6), MonkeyState([734, 63, 76, 3274, 88], 47)],
       [MonkeyState([91, 16, 20, 98], 48), MonkeyState([481, 245, 22, 26, 1092], 48), MonkeyState([], 6), MonkeyState([734, 63, 76, 3274, 88], 47)],
       [MonkeyState([91, 16, 20, 98], 48), MonkeyState([481, 245, 22, 26, 1092, 30], 48), MonkeyState([], 6), MonkeyState([734, 63, 76, 3274, 88], 47)]]);
  }

  lemma ThirdTurn10_3()
    ensures Turn(ExampleRules(), [MonkeyState([91, 16, 20, 98], 48), MonkeyState([481], 48), MonkeyState([], 6), MonkeyState([734, 63, 76, 3274, 88], 47)], 3, Third)
      == [MonkeyState([91, 16, 20, 98], 48), MonkeyState([481, 245, 22, 26, 1092, 30], 48), MonkeyState([], 6), MonkeyState([], 52)]
  {
    ThirdThrows10_3();
    ThirdDeliveries10_3();
  }

  lemma ThirdRound10(ms: seq<MonkeyState>)
    requires ms == [MonkeyState([116, 10, 12, 517, 14], 43), MonkeyState([108, 267, 43, 55, 288], 43), MonkeyState([], 5), MonkeyState([], 47)]
    ensures Round(ExampleRules(), ms, Third)
      == [MonkeyState([91, 16, 20, 98], 48), MonkeyState([481, 245, 22, 26, 1092, 30], 48), MonkeyState([], 6), MonkeyState([], 52)]
  {
    ThirdTurn10_0(); ThirdTurn10_1(); ThirdTurn10_2(); ThirdTurn10_3();
    RoundBy(ExampleRules(), ms, Third,
      [MonkeyState([], 48), MonkeyState([108, 267, 43, 55, 288], 43), MonkeyState([], 5), MonkeyState([734, 63, 76, 3274, 88], 47)],
      [MonkeyState([91, 16, 20, 98], 48), MonkeyState([], 48), MonkeyState([38], 5), MonkeyState([734, 63, 76, 3274, 88], 47)],
      [MonkeyState([91, 16, 20, 98], 48), MonkeyState([481], 48), MonkeyState([], 6), MonkeyState([734, 63, 76, 3274, 88], 47)],
      [MonkeyState([91, 16, 20, 98], 48), MonkeyState([481, 245, 22, 26, 1092, 30], 48), MonkeyState([], 6), MonkeyState([], 52)]);
  }

  lemma ThirdThrows11_0()
    ensures InspectAll(Rule(Mul(19), 23, 2, 3), [91, 16, 20, 98], Third)
      == [Throw(576, 3), Throw(101, 3), Throw(126, 3), Throw(620, 3)]
  {
  }

  lemma ThirdDeliveries11_0()
    ensures Lands([MonkeyState([91, 16, 20, 98], 48), MonkeyState([481, 245, 22, 26, 1092, 30], 48), MonkeyState([], 6), MonkeyState([], 52)], [Throw(576, 3), Throw(101, 3), Throw(126, 3), Throw(620, 3)])
    ensures DeliverAll([MonkeyState([91, 16, 20, 98], 48), MonkeyState([481, 245, 22, 26, 1092, 30], 48), MonkeyState([], 6), MonkeyState([], 52)], [Throw(576, 3), Throw(101, 3), Throw(126, 3), Throw(620, 3)])
      == [MonkeyState([91, 16, 20, 98], 48), MonkeyState([481, 245, 22, 26, 1092, 30], 48), MonkeyState([], 6), MonkeyState([576, 101, 126, 620], 52)]
  {
    DeliverChain([MonkeyState([91, 16, 20, 98], 48), MonkeyState([481, 245, 22, 26, 1092, 30], 48), MonkeyState([], 6), MonkeyState([], 52)], [Throw(576, 3), Throw(101, 3), Throw(126, 3), Throw(620, 3)],
      [[MonkeyState([91, 16, 20, 98], 48), MonkeyState([481, 245, 22, 26, 1092, 30], 48), MonkeyState([], 6), MonkeyState([], 52)],
       [MonkeyState([91, 16, 20, 98], 48), MonkeyState([481, 245, 22, 26, 1092, 30], 48), MonkeyState([], 6), MonkeyState([576], 52)],
       [MonkeyState([91, 16, 20, 98], 48), MonkeyState([481, 245, 22, 26, 1092, 30], 48), MonkeyState([], 6), MonkeyState([576, 101], 52)],
       [MonkeyState([91, 16, 20, 98], 48), MonkeyState([481, 245, 22, 26, 1092, 30], 48), MonkeyState([], 6), MonkeyState([576, 101, 126], 52)],
       [MonkeyState([91, 16, 20, 98], 48), MonkeyState([481, 245, 22, 26, 1092, 30], 48), MonkeyState([], 6), MonkeyState([576, 101, 126, 620], 52)]]);
  }

  lemma ThirdTurn11_0()
    ensures Turn(ExampleRules(), [MonkeyState([91, 16, 20, 98], 48), MonkeyState([481, 245, 22, 26, 1092, 30], 48), MonkeyState([], 6), MonkeyState([], 52)], 0, Third)
      == [MonkeyState([], 52), MonkeyState([481, 245, 22, 26, 1092, 30], 48), MonkeyState([], 6), MonkeyState([576, 101, 126, 620], 52)]
  {
    ThirdThrows11_0();
    ThirdDeliveries11_0();
  }

  lemma ThirdThrows11_1()
    ensures InspectAll(Rule(Add(6), 19, 2, 0), [481, 245, 22, 26, 1092, 30], Third)
      == [Throw(162, 0), Throw(83, 0), Throw(9, 0), Throw(10, 0), Throw(366, 0), Throw(12, 0)]
  {
  }

  lemma ThirdDeliveries11_1()
    ensures Lands([MonkeyState([], 52), MonkeyState([481, 245, 22, 26, 1092, 30], 48), MonkeyState([], 6), MonkeyState([576, 101, 126, 620], 52)], [Throw(162, 0), Throw(83, 0), Throw(9, 0), Throw(10, 0), Throw(366, 0), Throw(12, 0)])
    ensures DeliverAll([MonkeyState([], 52), MonkeyState([481, 245, 22, 26, 1092, 30], 48), MonkeyState([], 6), MonkeyState([576, 101, 126, 620], 52)], [Throw(162, 0), Throw(83, 0), Throw(9, 0), Throw(10, 0), Throw(366, 0), Throw(12, 0)])
      == [MonkeyState([162, 83, 9, 10, 366, 12], 52), MonkeyState([481, 245, 22, 26, 1092, 30], 48), MonkeyState([], 6), MonkeyState([576, 101, 126, 620], 52)]
  {
    DeliverChain([MonkeyState([], 52), MonkeyState([481, 245, 22, 26, 1092, 30], 48), MonkeyState([], 6), MonkeyState([576, 101, 126, 620], 52)], [Throw(162, 0), Throw(83, 0), Throw(9, 0), Throw(10, 0), Throw(366, 0), Throw(12, 0)],
      [[MonkeyState([], 52), MonkeyState([481, 245, 22, 26, 1092, 30], 48), MonkeyState([], 6), MonkeyState([576, 101, 126, 620], 52)],
       [MonkeyState([162], 52), MonkeyState([481, 245, 22, 26, 1092, 30], 48), MonkeyState([], 6), MonkeyState([576, 101, 126, 620], 52)],
       [MonkeyState([162, 83], 52), MonkeyState([481, 245, 22, 26, 1092, 30], 48), MonkeyState([], 6), MonkeyState([576, 101, 126, 620], 52)],
       [MonkeyState([162, 83, 9], 52), MonkeyState([481, 245, 22, 26, 1092, 30], 48), MonkeyState([], 6), MonkeyState([576, 101, 126, 620], 52)],
       [MonkeyState([162, 83, 9, 10], 52), MonkeyState([481, 245, 22, 26, 1092, 30], 48), MonkeyState([], 6), MonkeyState([576, 101, 126, 620], 52)],
       [MonkeyState([162, 83, 9, 10, 366], 52), MonkeyState([481, 245, 22, 26, 1092, 30], 48), MonkeyState([], 6), MonkeyState([576, 101, 126, 620], 52)],
       [MonkeyState([162, 83, 9, 10, 366, 12], 52), MonkeyState([481, 245, 22, 26, 1092, 30], 48), MonkeyState([], 6), MonkeyState([576, 101, 126, 620], 52)]]);
  }

  lemma ThirdTurn11_1()
    ensures Turn(ExampleRules(), [MonkeyState([], 52), MonkeyState([481, 245, 22, 26, 1092, 30], 48), MonkeyState([], 6), MonkeyState([576, 101, 126, 620], 52)], 1, Third)
      == [MonkeyState([162, 83, 9, 10, 366, 12], 52), MonkeyState([], 54), MonkeyState([], 6), MonkeyState([576, 101, 126, 620], 52)]
  {
    ThirdThrows11_1();
    ThirdDeliveries11_1();
  }

  lemma ThirdThrows11_2()
    ensures InspectAll(Rule(Square, 13, 1, 3), [], Third)
      == []
  {
  }

  lemma ThirdDeliveries11_2()
    ensures Lands([MonkeyState([162, 83, 9, 10, 366, 12], 52), MonkeyState([], 54), MonkeyState([], 6), MonkeyState([576, 101, 126, 620], 52)], [])
    ensures DeliverAll([MonkeyState([162, 83, 9, 10, 366, 12], 52), MonkeyState([], 54), MonkeyState([], 6), MonkeyState([576, 101, 126, 620], 52)], [])
      == [MonkeyState([162, 83, 9, 10, 366, 12], 52), MonkeyState([], 54), MonkeyState([], 6), MonkeyState([576, 101, 126, 620], 52)]
  {
    DeliverChain([MonkeyState([162, 83, 9, 10, 366, 12], 52), MonkeyState([], 54), MonkeyState([], 6), MonkeyState([576, 101, 126, 620], 52)], [],
      [[MonkeyState([162, 83, 9, 10, 366, 12], 52), MonkeyState([], 54), MonkeyState([], 6), MonkeyState([576, 101, 126, 620], 52)]]);
  }

  lemma ThirdTurn11_2()
    ensures Turn(ExampleRules(), [MonkeyState([162, 83, 9, 10, 366, 12], 52), MonkeyState([], 54), MonkeyState([], 6), MonkeyState([576, 101, 126, 620], 52)], 2, Third)
      == [MonkeyState([162, 83, 9, 10, 366, 12], 52), MonkeyState([], 54), MonkeyState([], 6), MonkeyState([576, 101, 126, 620], 52)]
  {
    ThirdThrows11_2();
    ThirdDeliveries11_2();
  }

  lemma ThirdThrows11_3()
    ensures InspectAll(Rule(Add(3), 17, 0, 1), [576, 101, 126, 620], Third)
      == [Throw(193, 1), Throw(34, 0), Throw(43, 1), Throw(207, 1)]
  {
  }

  lemma ThirdDeliveries11_3()
    ensures Lands([MonkeyState([162, 83, 9, 10, 366, 12], 52), MonkeyState([], 54), MonkeyState([], 6), MonkeyState([576, 101, 126, 620], 52)], [Throw(193, 1), Throw(34, 0), Throw(43, 1), Throw(207, 1)])
    ensures DeliverAll([MonkeyState([162, 83, 9, 10, 366, 12], 52), MonkeyState([], 54), MonkeyState([], 6), MonkeyState([576, 101, 126, 620], 52)], [Throw(193, 1), Throw(34, 0), Throw(43, 1), Throw(207, 1)])
      == [MonkeyState([162, 83, 9, 10, 366, 12, 34], 52), MonkeyState([193, 43, 207], 54), MonkeyState([], 6), MonkeyState([576, 101, 126, 620], 52)]
  {
    DeliverChain([MonkeyState([162, 83, 9, 10, 366, 12], 52), MonkeyState([], 54), MonkeyState([], 6), MonkeyState([576, 101, 126, 620], 52)], [Throw(193, 1), Throw(34, 0), Throw(43, 1), Throw(207, 1)],
      [[MonkeyState([162, 83, 9, 10, 366, 12], 52), MonkeyState([], 54), MonkeyState([], 6), MonkeyState([576, 101, 126, 620], 52)],
       [MonkeyState([162, 83, 9, 10, 366, 12], 52), MonkeyState([193], 54), MonkeyState([], 6), MonkeyState([576, 101, 126, 620], 52)],
       [MonkeyState([162, 83, 9, 10, 366, 12, 34], 52), MonkeyState([193], 54), MonkeyState([], 6), MonkeyState([576, 101, 126, 620], 52)],
       [MonkeyState([162, 83, 9, 10, 366, 12, 34], 52), MonkeyState([193, 43], 54), MonkeyState([], 6), MonkeyState([576, 101, 126, 620], 52)],
       [MonkeyState([162, 83, 9, 10, 366, 12, 34], 52), MonkeyState([193, 43, 207], 54), MonkeyState([], 6), MonkeyState([576, 101, 126, 620], 52)]]);
  }

  lemma ThirdTurn11_3()
    ensures Turn(ExampleRules(), [MonkeyState([162, 83, 9, 10, 366, 12], 52), MonkeyState([], 54), MonkeyState([], 6), MonkeyState([576, 101, 126, 620], 52)], 3, Third)
      == [MonkeyState([162, 83, 9, 10, 366, 12, 34], 52), MonkeyState([193, 43, 207], 54), MonkeyState([], 6), MonkeyState([], 56)]
  {
    ThirdThrows11_3();
    ThirdDeliveries11_3();
  }

  lemma ThirdRound11(ms: seq<MonkeyState>)
    requires ms == [MonkeyState([91, 16, 20, 98], 48), MonkeyState([481, 245, 22, 26, 1092, 30], 48), MonkeyState([], 6), MonkeyState([], 52)]
    ensures Round(ExampleRules(), ms, Third)
      == [MonkeyState([162, 83, 9, 10, 366, 12, 34], 52), MonkeyState([193, 43, 207], 54), MonkeyState([], 6), MonkeyState([], 56)]
  {
    ThirdTurn11_0(); ThirdTurn11_1(); ThirdTurn11_2(); ThirdTurn11_3();
    RoundBy(ExampleRules(), ms, Third,
      [MonkeyState([], 52), MonkeyState([481, 245, 22, 26, 1092, 30], 48), MonkeyState([], 6), MonkeyState([576, 101, 126, 620], 52)],
      [MonkeyState([162, 83, 9, 10, 366, 12], 52), MonkeyState([], 54), MonkeyState([], 6), MonkeyState([576, 101, 126, 620], 52)],
      [MonkeyState([162, 83, 9, 10, 366, 12], 52), MonkeyState([], 54), MonkeyState([], 6), MonkeyState([576, 101, 126, 620], 52)],
      [MonkeyState([162, 83, 9, 10, 366, 12, 34], 52), MonkeyState([193, 43, 207], 54), MonkeyState([], 6), MonkeyState([], 56)]);
  }

  lemma ThirdThrows12_0()
    ensures InspectAll(Rule(Mul(19), 23, 2, 3), [162, 83, 9, 10, 366, 12, 34], Third)
      == [Throw(1026, 3), Throw(525, 3), Throw(57, 3), Throw(63, 3), Throw(2318, 3), Throw(76, 3), Throw(215, 3)]
  {
  }

  lemma ThirdDeliveries12_0()
    ensures Lands([MonkeyState([162, 83, 9, 10, 366, 12, 34], 52), MonkeyState([193, 43, 207], 54), MonkeyState([], 6), MonkeyState([], 56)], [Throw(1026, 3), Throw(525, 3), Throw(57, 3), Throw(63, 3), Throw(2318, 3), Throw(76, 3), Throw(215, 3)])
    ensures DeliverAll([MonkeyState([162, 83, 9, 10, 366, 12, 34], 52), MonkeyState([193, 43, 207], 54), MonkeyState([], 6), MonkeyState([], 56)], [Throw(1026, 3), Throw(525, 3), Throw(57, 3), Throw(63, 3), Throw(2318, 3), Throw(76, 3), Throw(215, 3)])
      == [MonkeyState([162, 83, 9, 10, 366, 12, 34], 52), MonkeyState([193, 43, 207], 54), MonkeyState([], 6), MonkeyState([1026, 525, 57, 63, 2318, 76, 215], 56)]
  {
    DeliverChain([MonkeyState([162, 83, 9, 10, 366, 12, 34], 52), MonkeyState([193, 43, 207], 54), MonkeyState([], 6), MonkeyState([], 56)], [Throw(1026, 3), Throw(525, 3), Throw(57, 3), Throw(63, 3), Throw(2318, 3), Throw(76, 3), Throw(215, 3)],
      [[MonkeyState([162, 83, 9, 10, 366, 12, 34], 52), MonkeyState([193, 43, 207], 54), MonkeyState([], 6), MonkeyState([], 56)],
       [MonkeyState([162, 83, 9, 10, 366, 12, 34], 52), MonkeyState([193, 43, 207], 54), MonkeyState([], 6), MonkeyState([1026], 56)],
       [MonkeyState([162, 83, 9, 10, 366, 12, 34], 52), MonkeyState([193, 43, 207], 54), MonkeyState([], 6), MonkeyState([1026, 525], 56)],
       [MonkeyState([162, 83, 9, 10, 366, 12, 34], 52), MonkeyState([193, 43, 207], 54), MonkeyState([], 6), MonkeyState([1026, 525, 57], 56)],
       [MonkeyState([162, 83, 9, 10, 366, 12, 34], 52), MonkeyState([193, 43, 207], 54), MonkeyState([], 6), MonkeyState([1026, 525, 57, 63], 56)],
       [MonkeyState([162, 83, 9, 10, 366, 12, 34], 52), MonkeyState([193, 43, 207], 54), MonkeyState([], 6), MonkeyState([1026, 525, 57, 63, 2318], 56)],
       [MonkeyState([162, 83, 9, 10, 366, 12, 34], 52), MonkeyState([193, 43, 207], 54), MonkeyState([], 6), MonkeyState([1026, 525, 57, 63, 2318, 76], 56)],
       [MonkeyState([162, 83, 9, 10, 366, 12, 34], 52), MonkeyState([193, 43, 207], 54), MonkeyState([], 6), MonkeyState([1026, 525, 57, 63, 2318, 76, 215], 56)]]);
  }

  lemma ThirdTurn12_0()
    ensures Turn(ExampleRules(), [MonkeyState([162, 83, 9, 10, 366, 12, 34], 52), MonkeyState([193, 43, 207], 54), MonkeyState([], 6), MonkeyState([], 56)], 0, Third)
      == [MonkeyState([], 59), MonkeyState([193, 43, 207], 54), MonkeyState([], 6), MonkeyState([1026, 525, 57, 63, 2318, 76, 215], 56)]
  {
    ThirdThrows12_0();
    ThirdDeliveries12_0();
  }

  lemma ThirdThrows12_1()
    ensures InspectAll(Rule(Add(6), 19, 2, 0), [193, 43, 207], Third)
      == [Throw(66, 0), Throw(16, 0), Throw(71, 0)]
  {
  }

  lemma ThirdDeliveries12_1()
    ensures Lands([MonkeyState([], 59), MonkeyState([193, 43, 207], 54), MonkeyState([], 6), MonkeyState([1026, 525, 57, 63, 2318, 76, 215], 56)], [Throw(66, 0), Throw(16, 0), Throw(71, 0)])
    ensures DeliverAll([MonkeyState([], 59), MonkeyState([193, 43, 207], 54), MonkeyState([], 6), MonkeyState([1026, 525, 57, 63, 2318, 76, 215], 56)], [Throw(66, 0), Throw(16, 0), Throw(71, 0)])
      == [MonkeyState([66, 16, 71], 59), MonkeyState([193, 43, 207], 54), MonkeyState([], 6), MonkeyState([1026, 525, 57, 63, 2318, 76, 215], 56)]
  {
    DeliverChain([MonkeyState([], 59), MonkeyState([193, 43, 207], 54), MonkeyState([], 6), MonkeyState([1026, 525, 57, 63, 2318, 76, 215], 56)], [Throw(66, 0), Throw(16, 0), Throw(71, 0)],
      [[MonkeyState([], 59), MonkeyState([193, 43, 207], 54), MonkeyState([], 6), MonkeyState([1026, 525, 57, 63, 2318, 76, 215], 56)],
       [MonkeyState([66], 59), MonkeyState([193, 43, 207], 54), MonkeyState([], 6), MonkeyState([1026, 525, 57, 63, 2318, 76, 215], 56)],
       [MonkeyState([66, 16], 59), MonkeyState([193, 43, 207], 54), MonkeyState([], 6), MonkeyState([1026, 525, 57, 63, 2318, 76, 215], 56)],
       [MonkeyState([66, 16, 71], 59), MonkeyState([193, 43, 207], 54), MonkeyState([], 6), MonkeyState([1026, 525, 57, 63, 2318, 76, 215], 56)]]);
  }

  lemma ThirdTurn12_1()
    ensures Turn(ExampleRules(), [MonkeyState([], 59), MonkeyState([193, 43, 207], 54), MonkeyState([], 6), MonkeyState([1026, 525, 57, 63, 2318, 76, 215], 56)], 1, Third)
      == [MonkeyState([66, 16, 71], 59), MonkeyState([], 57), MonkeyState([], 6), MonkeyState([1026, 525, 57, 63, 2318, 76, 215], 56)]
  {
    ThirdThrows12_1();
    ThirdDeliveries12_1();
  }

  lemma ThirdThrows12_2()
    ensures InspectAll(Rule(Square, 13, 1, 3), [], Third)
      == []
  {
  }

  lemma ThirdDeliveries12_2()
    ensures Lands([MonkeyState([66, 16, 71], 59), MonkeyState([], 57), MonkeyState([], 6), MonkeyState([1026, 525, 57, 63, 2318, 76, 215], 56)], [])
    ensures DeliverAll([MonkeyState([66, 16, 71], 59), MonkeyState([], 57), MonkeyState([], 6), MonkeyState([1026, 525, 57, 63, 2318, 76, 215], 56)], [])
      == [MonkeyState([66, 16, 71], 59), MonkeyState([], 57), MonkeyState([], 6), MonkeyState([1026, 525, 57, 63, 2318, 76, 215], 56)]
  {
    DeliverChain([MonkeyState([66, 16, 71], 59), MonkeyState([], 57), MonkeyState([], 6), MonkeyState([1026, 525, 57, 63, 2318, 76, 215], 56)], [],
      [[MonkeyState([66, 16, 71], 59), MonkeyState([], 57), MonkeyState([], 6), MonkeyState([1026, 525, 57, 63, 2318, 76, 215], 56)]]);
  }

  lemma ThirdTurn12_2()
    ensures Turn(ExampleRules(), [MonkeyState([66, 16, 71], 59), MonkeyState([], 57), MonkeyState([], 6), MonkeyState([1026, 525, 57, 63, 2318, 76, 215], 56)], 2, Third)
      == [MonkeyState([66, 16, 71], 59), MonkeyState([], 57), MonkeyState([], 6), MonkeyState([1026, 525, 57, 63, 2318, 76, 215], 56)]
  {
    ThirdThrows12_2();
    ThirdDeliveries12_2();
  }

  lemma ThirdThrows12_3()
    ensures InspectAll(Rule(Add(3), 17, 0, 1), [1026, 525, 57, 63, 2318, 76, 215], Third)
      == [Throw(343, 1), Throw(176, 1), Throw(20, 1), Throw(22, 1), Throw(773, 1), Throw(26, 1), Throw(72, 1)]
  {
  }

  lemma ThirdDeliveries12_3()
    ensures Lands([MonkeyState([66, 16, 71], 59), MonkeyState([], 57), MonkeyState([], 6), MonkeyState([1026, 525, 57, 63, 2318, 76, 215], 56)], [Throw(343, 1), Throw(176, 1), Throw(20, 1), Throw(22, 1), Throw(773, 1), Throw(26, 1), Throw(72, 1)])
    ensures DeliverAll([MonkeyState([66, 16, 71], 59), MonkeyState([], 57), MonkeyState([], 6), MonkeyState([1026, 525, 57, 63, 2318, 76, 215], 56)], [Throw(343, 1), Throw(176, 1), Throw(20, 1), Throw(22, 1), Throw(773, 1), Throw(26, 1), Throw(72, 1)])
      == [MonkeyState([66, 16, 71], 59), MonkeyState([343, 176, 20, 22, 773, 26, 72], 57), MonkeyState([], 6), MonkeyState([1026, 525, 57, 63, 2318, 76, 215], 56)]
  {
    DeliverChain([MonkeyState([66, 16, 71], 59), MonkeyState([], 57), MonkeyState([], 6), MonkeyState([1026, 525, 57, 63, 2318, 76, 215], 56)], [Throw(343, 1), Throw(176, 1), Throw(20, 1), Throw(22, 1), Throw(773, 1), Throw(26, 1), Throw(72, 1)],
      [[MonkeyState([66, 16, 71], 59), MonkeyState([], 57), MonkeyState([], 6), MonkeyState([1026, 525, 57, 63, 2318, 76, 215], 56)],
       [MonkeyState([66, 16, 71], 59), MonkeyState([343], 57), MonkeyState([], 6), MonkeyState([1026, 525, 57, 63, 2318, 76, 215], 56)],
       [MonkeyState([66, 16, 71], 59), MonkeyState([343, 176], 57), MonkeyState([], 6), MonkeyState([1026, 525, 57, 63, 2318, 76, 215], 56)],
       [MonkeyState([66, 16, 71], 59), MonkeyState([343, 176, 20], 57), MonkeyState([], 6), MonkeyState([1026, 525, 57, 63, 2318, 76, 215], 56)],
       [MonkeyState([66, 16, 71], 59), MonkeyState([343, 176, 20, 22], 57), MonkeyState([], 6), MonkeyState([1026, 525, 57, 63, 2318, 76, 215], 56)],
       [MonkeyState([66, 16, 71], 59), MonkeyState([343, 176, 20, 22, 773], 57), MonkeyState([], 6), MonkeyState([1026, 525, 57, 63, 2318, 76, 215], 56)],
       [MonkeyState([66, 16, 71], 59), MonkeyState([343, 176, 20, 22, 773, 26], 57), MonkeyState([], 6), MonkeyState([1026, 525, 57, 63, 2318, 76, 215], 56)],
       [MonkeyState([66, 16, 71], 59), MonkeyState([343, 176, 20, 22, 773, 26, 72], 57), MonkeyState([], 6), MonkeyState([1026, 525, 57, 63, 2318, 76, 215], 56)]]);
  }

  lemma ThirdTurn12_3()
    ensures Turn(ExampleRules(), [MonkeyState([66, 16, 71], 59), MonkeyState([], 57), MonkeyState([], 6), MonkeyState([1026, 525, 57, 63, 2318, 76, 215], 56)], 3, Third)
      == [MonkeyState([66, 16, 71], 59), MonkeyState([343, 176, 20, 22, 773, 26, 72], 57), MonkeyState([], 6), MonkeyState([], 63)]
  {
    ThirdThrows12_3();
    ThirdDeliveries12_3();
  }

  lemma ThirdRound12(ms: seq<MonkeyState>)
    requires ms == [MonkeyState([162, 83, 9, 10, 366, 12, 34], 52), MonkeyState([193, 43, 207], 54), MonkeyState([], 6), MonkeyState([], 56)]
    ensures Round(ExampleRules(), ms, Third)
      == [MonkeyState([66, 16, 71], 59), MonkeyState([343, 176, 20, 22, 773, 26, 72], 57), MonkeyState([], 6), MonkeyState([], 63)]
  {
    ThirdTurn12_0(); ThirdTurn12_1(); ThirdTurn12_2(); ThirdTurn12_3();
    RoundBy(ExampleRules(), ms, Third,
      [MonkeyState([], 59), MonkeyState([193, 43, 207], 54), MonkeyState([], 6), MonkeyState([1026, 525, 57, 63, 2318, 76, 215], 56)],
      [MonkeyState([66, 16, 71], 59), MonkeyState([], 57), MonkeyState([], 6), MonkeyState([1026, 525, 57, 63, 2318, 76, 215], 56)],
      [MonkeyState([66, 16, 71], 59), MonkeyState([], 57), MonkeyState([], 6), MonkeyState([1026, 525, 57, 63, 2318, 76, 215], 56)],
      [MonkeyState([66, 16, 71], 59), MonkeyState([343, 176, 20, 22, 773, 26, 72], 57), MonkeyState([], 6), MonkeyState([], 63)]);
  }

  lemma ThirdThrows13_0()
    ensures InspectAll(Rule(Mul(19), 23, 2, 3), [66, 16, 71], Third)
      == [Throw(418, 3), Throw(101, 3), Throw(449, 3)]
  {
  }

  lemma ThirdDeliveries13_0()
    ensures Lands([MonkeyState([66, 16, 71], 59), MonkeyState([343, 176, 20, 22, 773, 26, 72], 57), MonkeyState([], 6), MonkeyState([], 63)], [Throw(418, 3), Throw(101, 3), Throw(449, 3)])
    ensures DeliverAll([MonkeyState([66, 16, 71], 59), MonkeyState([343, 176, 20, 22, 773, 26, 72], 57), MonkeyState([], 6), MonkeyState([], 63)], [Throw(418, 3), Throw(101, 3), Throw(449, 3)])
      == [MonkeyState([66, 16, 71], 59), MonkeyState([343, 176, 20, 22, 773, 26, 72], 57), MonkeyState([], 6), MonkeyState([418, 101, 449], 63)]
  {
    DeliverChain([MonkeyState([66, 16, 71], 59), MonkeyState([343, 176, 20, 22, 773, 26, 72], 57), MonkeyState([], 6), MonkeyState([], 63)], [Throw(418, 3), Throw(101, 3), Throw(449, 3)],
      [[MonkeyState([66, 16, 71], 59), MonkeyState([343, 176, 20, 22, 773, 26, 72], 57), MonkeyState([], 6), MonkeyState([], 63)],
       [MonkeyState([66, 16, 71], 59), MonkeyState([343, 176, 20, 22, 773, 26, 72], 57), MonkeyState([], 6), MonkeyState([418], 63)],
       [MonkeyState([66, 16, 71], 59), MonkeyState([343, 176, 20, 22, 773, 26, 72], 57), MonkeyState([], 6), MonkeyState([418, 101], 63)],
       [MonkeyState([66, 16, 71], 59), MonkeyState([343, 176, 20, 22, 773, 26, 72], 57), MonkeyState([], 6), MonkeyState([418, 101, 449], 63)]]);
  }

  lemma ThirdTurn13_0()
    ensures Turn(ExampleRules(), [MonkeyState([66, 16, 71], 59), MonkeyState([343, 176, 20, 22, 773, 26, 72], 57), MonkeyState([], 6), MonkeyState([], 63)], 0, Third)
      == [MonkeyState([], 62), MonkeyState([343, 176, 20, 22, 773, 26, 72], 57), MonkeyState([], 6), MonkeyState([418, 101, 449], 63)]
  {
    ThirdThrows13_0();
    ThirdDeliveries13_0();
  }

  lemma ThirdThrows13_1()
    ensures InspectAll(Rule(Add(6), 19, 2, 0), [343, 176, 20, 22, 773, 26, 72], Third)
      == [Throw(116, 0), Throw(60, 0), Throw(8, 0), Throw(9, 0), Throw(259, 0), Throw(10, 0), Throw(26, 0)]
  {
  }

  lemma ThirdDeliveries13_1()
    ensures Lands([MonkeyState([], 62), MonkeyState([343, 176, 20, 22, 773, 26, 72], 57), MonkeyState([], 6), MonkeyState([418, 101, 449], 63)], [Throw(116, 0), Throw(60, 0), Throw(8, 0), Throw(9, 0), Throw(259, 0), Throw(10, 0), Throw(26, 0)])
    ensures DeliverAll([MonkeyState([], 62), MonkeyState([343, 176, 20, 22, 773, 26, 72], 57), MonkeyState([], 6), MonkeyState([418, 101, 449], 63)], [Throw(116, 0), Throw(60, 0), Throw(8, 0), Throw(9, 0), Throw(259, 0), Throw(10, 0), Throw(26, 0)])
      == [MonkeyState([116, 60, 8, 9, 259, 10, 26], 62), MonkeyState([343, 176, 20, 22, 773, 26, 72], 57), MonkeyState([], 6), MonkeyState([418, 101, 449], 63)]
  {
    DeliverChain([MonkeyState([], 62), MonkeyState([343, 176, 20, 22, 773, 26, 72], 57), MonkeyState([], 6), MonkeyState([418, 101, 449], 63)], [Throw(116, 0), Throw(60, 0), Throw(8, 0), Throw(9, 0), Throw(259, 0), Throw(10, 0), Throw(26, 0)],
      [[MonkeyState([], 62), MonkeyState([343, 176, 20, 22, 773, 26, 72], 57), MonkeyState([], 6), MonkeyState([418, 101, 449], 63)],
       [MonkeyState([116], 62), MonkeyState([343, 176, 20, 22, 773, 26, 72], 57), MonkeyState([], 6), MonkeyState([418, 101, 449], 63)],
       [MonkeyState([116, 60], 62), MonkeyState([343, 176, 20, 22, 773, 26, 72], 57), MonkeyState([], 6), MonkeyState([418, 101, 449], 63)],
       [MonkeyState([116, 60, 8], 62), MonkeyState([343, 176, 20, 22, 773, 26, 72], 57), MonkeyState([], 6), MonkeyState([418, 101, 449], 63)],
       [MonkeyState([116, 60, 8, 9], 62), MonkeyState([343, 176, 20, 22, 773, 26, 72], 57), MonkeyState([], 6), MonkeyState([418, 101, 449], 63)],
       [MonkeyState([116, 60, 8, 9, 259], 62), MonkeyState([343, 176, 20, 22, 773, 26, 72], 57), MonkeyState([], 6), MonkeyState([418, 101, 449], 63)],
       [MonkeyState([116, 60, 8, 9, 259, 10], 62), MonkeyState([343, 176, 20, 22, 773, 26, 72], 57), MonkeyState([], 6), MonkeyState([418, 101, 449], 63)],
       [MonkeyState([116, 60, 8, 9, 259, 10, 26], 62), MonkeyState([343, 176, 20, 22, 773, 26, 72], 57), MonkeyState([], 6), MonkeyState([418, 101, 449], 63)]]);
  }

  lemma ThirdTurn13_1()
    ensures Turn(ExampleRules(), [MonkeyState([], 62), MonkeyState([343, 176, 20, 22, 773, 26, 72], 57), MonkeyState([], 6), MonkeyState([418, 101, 449], 63)], 1, Third)
      == [MonkeyState([116, 60, 8, 9, 259, 10, 26], 62), MonkeyState([], 64), MonkeyState([], 6), MonkeyState([418, 101, 449], 63)]
  {
    ThirdThrows13_1();
    ThirdDeliveries13_1();
  }

  lemma ThirdThrows13_2()
    ensures InspectAll(Rule(Square, 13, 1, 3), [], Third)
      == []
  {
  }

  lemma ThirdDeliveries13_2()
    ensures Lands([MonkeyState([116, 60, 8, 9, 259, 10, 26], 62), MonkeyState([], 64), MonkeyState([], 6), MonkeyState([418, 101, 449], 63)], [])
    ensures DeliverAll([MonkeyState([116, 60, 8, 9, 259, 10, 26], 62), MonkeyState([], 64), MonkeyState([], 6), MonkeyState([418, 101, 449], 63)], [])
      == [MonkeyState([116, 60, 8, 9, 259, 10, 26], 62), MonkeyState([], 64), MonkeyState([], 6), MonkeyState([418, 101, 449], 63)]
  {
    DeliverChain([MonkeyState([116, 60, 8, 9, 259, 10, 26], 62), MonkeyState([], 64), MonkeyState([], 6), MonkeyState([418, 101, 449], 63)], [],
      [[MonkeyState([116, 60, 8, 9, 259, 10, 26], 62), MonkeyState([], 64), MonkeyState([], 6), MonkeyState([418, 101, 449], 63)]]);
  }

  lemma ThirdTurn13_2()
    ensures Turn(ExampleRules(), [MonkeyState([116, 60, 8, 9, 259, 10, 26], 62), MonkeyState([], 64), MonkeyState([], 6), MonkeyState([418, 101, 449], 63)], 2, Third)
      == [MonkeyState([116, 60, 8, 9, 259, 10, 26], 62), MonkeyState([], 64), MonkeyState([], 6), MonkeyState([418, 101, 449], 63)]
  {
    ThirdThrows13_2();
    ThirdDeliveries13_2();
  }

  lemma ThirdThrows13_3()
    ensures InspectAll(Rule(Add(3), 17, 0, 1), [418, 101, 449], Third)
      == [Throw(140, 1), Throw(34, 0), Throw(150, 1)]
  {
  }

  lemma ThirdDeliveries13_3()
    ensures Lands([MonkeyState([116, 60, 8, 9, 259, 10, 26], 62), MonkeyState([], 64), MonkeyState([], 6), MonkeyState([418, 101, 449], 63)], [Throw(140, 1), Throw(34, 0), Throw(150, 1)])
    ensures DeliverAll([MonkeyState([116, 60, 8, 9, 259, 10, 26], 62), MonkeyState([], 64), MonkeyState([], 6), MonkeyState([418, 101, 449], 63)], [Throw(140, 1), Throw(34, 0), Throw(150, 1)])
      == [MonkeyState([116, 60, 8, 9, 259, 10, 26, 34], 62), MonkeyState([140, 150], 64), MonkeyState([], 6), MonkeyState([418, 101, 449], 63)]
  {
    DeliverChain([MonkeyState([116, 60, 8, 9, 259, 10, 26], 62), MonkeyState([], 64), MonkeyState([], 6), MonkeyState([418, 101, 449], 63)], [Throw(140, 1), Throw(34, 0), Throw(150, 1)],
      [[MonkeyState([116, 60, 8, 9, 259, 10, 26], 62), MonkeyState([], 64), MonkeyState([], 6), MonkeyState([418, 101, 449], 63)],
       [MonkeyState([116, 60, 8, 9, 259, 10, 26], 62), MonkeyState([140], 64), MonkeyState([], 6), MonkeyState([418, 101, 449], 63)],
       [MonkeyState([116, 60, 8, 9, 259, 10, 26, 34], 62), MonkeyState([140], 64), MonkeyState([], 6), MonkeyState([418, 101, 449], 63)],
       [MonkeyState([116, 60, 8, 9, 259, 10, 26, 34], 62), MonkeyState([140, 150], 64), MonkeyState([], 6), MonkeyState([418, 101, 449], 63)]]);
  }

  lemma ThirdTurn13_3()
    ensures Turn(ExampleRules(), [MonkeyState([116, 60, 8, 9, 259, 10, 26], 62), MonkeyState([], 64), MonkeyState([], 6), MonkeyState([418, 101, 449], 63)], 3, Third)
      == [MonkeyState([116, 60, 8, 9, 259, 10, 26, 34], 62), MonkeyState([140, 150], 64), MonkeyState([], 6), MonkeyState([], 66)]
  {
    ThirdThrows13_3();
    ThirdDeliveries13_3();
  }

  lemma ThirdRound13(ms: seq<MonkeyState>)
    requires ms == [MonkeyState([66, 16, 71], 59), MonkeyState([343, 176, 20, 22, 773, 26, 72], 57), MonkeyState([], 6), MonkeyState([], 63)]
    ensures Round(ExampleRules(), ms, Third)
      == [MonkeyState([116, 60, 8, 9, 259, 10, 26, 34], 62), MonkeyState([140, 150], 64), MonkeyState([], 6), MonkeyState([], 66)]
  {
    ThirdTurn13_0(); ThirdTurn13_1(); ThirdTurn13_2(); ThirdTurn13_3();
    RoundBy(ExampleRules(), ms, Third,
      [MonkeyState([], 62), MonkeyState([343, 176, 20, 22, 773, 26, 72], 57), MonkeyState([], 6), MonkeyState([418, 101, 449], 63)],
      [MonkeyState([116, 60, 8, 9, 259, 10, 26], 62), MonkeyState([], 64), MonkeyState([], 6), MonkeyState([418, 101, 449], 63)],
      [MonkeyState([116, 60, 8, 9, 259, 10, 26], 62), MonkeyState([], 64), MonkeyState([], 6), MonkeyState([418, 101, 449], 63)],
      [MonkeyState([116, 60, 8, 9, 259, 10, 26, 34], 62), MonkeyState([140, 150], 64), MonkeyState([], 6), MonkeyState([], 66)]);
  }

  lemma ThirdThrows14_0()
    ensures InspectAll(Rule(Mul(19), 23, 2, 3), [116, 60, 8, 9, 259, 10, 26, 34], Third)
      == [Throw(734, 3), Throw(380, 3), Throw(50, 3), Throw(57, 3), Throw(1640, 3), Throw(63, 3), Throw(164, 3), Throw(215, 3)]
  {
  }

  lemma ThirdDeliveries14_0()
    ensures Lands([MonkeyState([116, 60, 8, 9, 259, 10, 26, 34], 62), MonkeyState([140, 150], 64), MonkeyState([], 6), MonkeyState([], 66)], [Throw(734, 3), Throw(380, 3), Throw(50, 3), Throw(57, 3), Throw(1640, 3), Throw(63, 3), Throw(164, 3), Throw(215, 3)])
    ensures DeliverAll([MonkeyState([116, 60, 8, 9, 259, 10, 26, 34], 62), MonkeyState([140, 150], 64), MonkeyState([], 6), MonkeyState([], 66)], [Throw(734, 3), Throw(380, 3), Throw(50, 3), Throw(57, 3), Throw(1640, 3), Throw(63, 3), Throw(164, 3), Throw(215, 3)])
      == [MonkeyState([116, 60, 8, 9, 259, 10, 26, 34], 62), MonkeyState([140, 150], 64), MonkeyState([], 6), MonkeyState([734, 380, 50, 57, 1640, 63, 164, 215], 66)]
  {
    DeliverChain([MonkeyState([116, 60, 8, 9, 259, 10, 26, 34], 62), MonkeyState([140, 150], 64), MonkeyState([], 6), MonkeyState([], 66)], [Throw(734, 3), Throw(380, 3), Throw(50, 3), Throw(57, 3), Throw(1640, 3), Throw(63, 3), Throw(164, 3), Throw(215, 3)],
      [[MonkeyState([116, 60, 8, 9, 259, 10, 26, 34], 62), MonkeyState([140, 150], 64), MonkeyState([], 6), MonkeyState([], 66)],
       [MonkeyState([116, 60, 8, 9, 259, 10, 26, 34], 62), MonkeyState([140, 150], 64), MonkeyState([], 6), MonkeyState([734], 66)],
       [MonkeyState([116, 60, 8, 9, 259, 10, 26, 34], 62), MonkeyState([140, 150], 64), MonkeyState([], 6), MonkeyState([734, 380], 66)],
       [MonkeyState([116, 60, 8, 9, 259, 10, 26, 34], 62), MonkeyState([140, 150], 64), MonkeyState([], 6), MonkeyState([734, 380, 50], 66)],
       [MonkeyState([116, 60, 8, 9, 259, 10, 26, 34], 62), MonkeyState([140, 150], 64), MonkeyState([], 6), MonkeyState([734, 380, 50, 57], 66)],
       [MonkeyState([116, 60, 8, 9, 259, 10, 26, 34], 62), MonkeyState([140, 150], 64), MonkeyState([], 6), MonkeyState([734, 380, 50, 57, 1640], 66)],
       [MonkeyState([116, 60, 8, 9, 259, 10, 26, 34], 62), MonkeyState([140, 150], 64), MonkeyState([], 6), MonkeyState([734, 380, 50, 57, 1640, 63], 66)],
       [MonkeyState([116, 60, 8, 9, 259, 10, 26, 34], 62), MonkeyState([140, 150], 64), MonkeyState([], 6), MonkeyState([734, 380, 50, 57, 1640, 63, 164], 66)],
       [MonkeyState([116, 60, 8, 9, 259, 10, 26, 34], 62), MonkeyState([140, 150], 64), MonkeyState([], 6), MonkeyState([734, 380, 50, 57, 1640, 63, 164, 215], 66)]]);
  }

  lemma ThirdTurn14_0()
    ensures Turn(ExampleRules(), [MonkeyState([116, 60, 8, 9, 259, 10, 26, 34], 62), MonkeyState([140, 150], 64), MonkeyState([], 6), MonkeyState([], 66)], 0, Third)
      == [MonkeyState([], 70), MonkeyState([140, 150], 64), MonkeyState([], 6), MonkeyState([734, 380, 50, 57, 1640, 63, 164, 215], 66)]
  {
    ThirdThrows14_0();
    ThirdDeliveries14_0();
  }

  lemma ThirdThrows14_1()
    ensures InspectAll(Rule(Add(6), 19, 2, 0), [140, 150], Third)
      == [Throw(48, 0), Throw(52, 0)]
  {
  }

  lemma ThirdDeliveries14_1()
    ensures Lands([MonkeyState([], 70), MonkeyState([140, 150], 64), MonkeyState([], 6), MonkeyState([734, 380, 50, 57, 1640, 63, 164, 215], 66)], [Throw(48, 0), Throw(52, 0)])
    ensures DeliverAll([MonkeyState([], 70), MonkeyState([140, 150], 64), MonkeyState([], 6), MonkeyState([734, 380, 50, 57, 1640, 63, 164, 215], 66)], [Throw(48, 0), Throw(52, 0)])
      == [MonkeyState([48, 52], 70), MonkeyState([140, 150], 64), MonkeyState([], 6), MonkeyState([734, 380, 50, 57, 1640, 63, 164, 215], 66)]
  {
    DeliverChain([MonkeyState([], 70), MonkeyState([140, 150], 64), MonkeyState([], 6), MonkeyState([734, 380, 50, 57, 1640, 63, 164, 215], 66)], [Throw(48, 0), Throw(52, 0)],
      [[MonkeyState([], 70), MonkeyState([140, 150], 64), MonkeyState([], 6), MonkeyState([734, 380, 50, 57, 1640, 63, 164, 215], 66)],
       [MonkeyState([48], 70), MonkeyState([140, 150], 64), MonkeyState([], 6), MonkeyState([734, 380, 50, 57, 1640, 63, 164, 215], 66)],
       [MonkeyState([48, 52], 70), MonkeyState([140, 150], 64), MonkeyState([], 6), MonkeyState([734, 380, 50, 57, 1640, 63, 164, 215], 66)]]);
  }

  lemma ThirdTurn14_1()
    ensures Turn(ExampleRules(), [MonkeyState([], 70), MonkeyState([140, 150], 64), MonkeyState([], 6), MonkeyState([734, 380, 50, 57, 1640, 63, 164, 215], 66)], 1, Third)
      == [MonkeyState([48, 52], 70), MonkeyState([], 66), MonkeyState([], 6), MonkeyState([734, 380, 50, 57, 1640, 63, 164, 215], 66)]
  {
    ThirdThrows14_1();
    ThirdDeliveries14_1();
  }

  lemma ThirdThrows14_2()
    ensures InspectAll(Rule(Square, 13, 1, 3), [], Third)
      == []
  {
  }

  lemma ThirdDeliveries14_2()
    ensures Lands([MonkeyState([48, 52], 70), MonkeyState([], 66), MonkeyState([], 6), MonkeyState([734, 380, 50, 57, 1640, 63, 164, 215], 66)], [])
    ensures DeliverAll([MonkeyState([48, 52], 70), MonkeyState([], 66), MonkeyState([], 6), MonkeyState([734, 380, 50, 57, 1640, 63, 164, 215], 66)], [])
      == [MonkeyState([48, 52], 70), MonkeyState([], 66), MonkeyState([], 6), MonkeyState([734, 380, 50, 57, 1640, 63, 164, 215], 66)]
  {
    DeliverChain([MonkeyState([48, 52], 70), MonkeyState([], 66), MonkeyState([], 6), MonkeyState([734, 380, 50, 57, 1640, 63, 164, 215], 66)], [],
      [[MonkeyState([48, 52], 70), MonkeyState([], 66), MonkeyState([], 6), MonkeyState([734, 380, 50, 57, 1640, 63, 164, 215], 66)]]);
  }

  lemma ThirdTurn14_2()
    ensures Turn(ExampleRules(), [MonkeyState([48, 52], 70), MonkeyState([], 66), MonkeyState([], 6), MonkeyState([734, 380, 50, 57, 1640, 63, 164, 215], 66)], 2, Third)
      == [MonkeyState([48, 52], 70), MonkeyState([], 66), MonkeyState([], 6), MonkeyState([734, 380, 50, 57, 1640, 63, 164, 215], 66)]
  {
    ThirdThrows14_2();
    ThirdDeliveries14_2();
  }

  lemma ThirdThrows14_3()
    ensures InspectAll(Rule(Add(3), 17, 0, 1), [734, 380, 50, 57, 1640, 63, 164, 215], Third)
      == [Throw(245, 1), Throw(127, 1), Throw(17, 0), Throw(20, 1), Throw(547, 1), Throw(22, 1), Throw(55, 1), Throw(72, 1)]
  {
  }

  lemma ThirdDeliveries14_3()
    ensures Lands([MonkeyState([48, 52], 70), MonkeyState([], 66), MonkeyState([], 6), MonkeyState([734, 380, 50, 57, 1640, 63, 164, 215], 66)], [Throw(245, 1), Throw(127, 1), Throw(17, 0), Throw(20, 1), Throw(547, 1), Throw(22, 1), Throw(55, 1), Throw(72, 1)])
    ensures DeliverAll([MonkeyState([48, 52], 70), MonkeyState([], 66), MonkeyState([], 6), MonkeyState([734, 380, 50, 57, 1640, 63, 164, 215], 66)], [Throw(245, 1), Throw(127, 1), Throw(17, 0), Throw(20, 1), Throw(547, 1), Throw(22, 1), Throw(55, 1), Throw(72, 1)])
      == [MonkeyState([48, 52, 17], 70), MonkeyState([245, 127, 20, 547, 22, 55, 72], 66), MonkeyState([], 6), MonkeyState([734, 380, 50, 57, 1640, 63, 164, 215], 66)]
  {
    DeliverChain([MonkeyState([48, 52], 70), MonkeyState([], 66), MonkeyState([], 6), MonkeyState([734, 380, 50, 57, 1640, 63, 164, 215], 66)], [Throw(245, 1), Throw(127, 1), Throw(17, 0), Throw(20, 1), Throw(547, 1), Throw(22, 1), Throw(55, 1), Throw(72, 1)],
      [[MonkeyState([48, 52], 70), MonkeyState([], 66), MonkeyState([], 6), MonkeyState([734, 380, 50, 57, 1640, 63, 164, 215], 66)],
       [MonkeyState([48, 52], 70), MonkeyState([245], 66), MonkeyState([], 6), MonkeyState([734, 380, 50, 57, 1640, 63, 164, 215], 66)],
       [MonkeyState([48, 52], 70), MonkeyState([245, 127], 66), MonkeyState([], 6), MonkeyState([734, 380, 50, 57, 1640, 63, 164, 215], 66)],
       [MonkeyState([48, 52, 17], 70), MonkeyState([245, 127], 66), MonkeyState([], 6), MonkeyState([734, 380, 50, 57, 1640, 63, 164, 215], 66)],
       [MonkeyState([48, 52, 17], 70), MonkeyState([245, 127, 20], 66), MonkeyState([], 6), MonkeyState([734, 380, 50, 57, 1640, 63, 164, 215], 66)],
       [MonkeyState([48, 52, 17], 70), MonkeyState([245, 127, 20, 547], 66), MonkeyState([], 6), MonkeyState([734, 380, 50, 57, 1640, 63, 164, 215], 66)],
       [MonkeyState([48, 52, 17], 70), MonkeyState([245, 127, 20, 547, 22], 66), MonkeyState([], 6), MonkeyState([734, 380, 50, 57, 1640, 63, 164, 215], 66)],
       [MonkeyState([48, 52, 17], 70), MonkeyState([245, 127, 20, 547, 22, 55], 66), MonkeyState([], 6), MonkeyState([734, 380, 50, 57, 1640, 63, 164, 215], 66)],
       [MonkeyState([48, 52, 17], 70), MonkeyState([245, 127, 20, 547, 22, 55, 72], 66), MonkeyState([], 6), MonkeyState([734, 380, 50, 57, 1640, 63, 164, 215], 66)]]);
  }

  lemma ThirdTurn14_3()
    ensures Turn(ExampleRules(), [MonkeyState([48, 52], 70), MonkeyState([], 66), MonkeyState([], 6), MonkeyState([734, 380, 50, 57, 1640, 63, 164, 215], 66)], 3, Third)
      == [MonkeyState([48, 52, 17], 70), MonkeyState([245, 127, 20, 547, 22, 55, 72], 66), MonkeyState([], 6), MonkeyState([], 74)]
  {
    ThirdThrows14_3();
    ThirdDeliveries14_3();
  }

  lemma ThirdRound14(ms: seq<MonkeyState>)
    requires ms == [MonkeyState([116, 60, 8, 9, 259, 10, 26, 34], 62), MonkeyState([140, 150], 64), MonkeyState([], 6), MonkeyState([], 66)]
    ensures Round(ExampleRules(), ms, Third)
      == [MonkeyState([48, 52, 17], 70), MonkeyState([245, 127, 20, 547, 22, 55, 72], 66), MonkeyState([], 6), MonkeyState([], 74)]
  {
    ThirdTurn14_0(); ThirdTurn14_1(); ThirdTurn14_2(); ThirdTurn14_3();
    RoundBy(ExampleRules(), ms, Third,
      [MonkeyState([], 70), MonkeyState([140, 150], 64), MonkeyState([], 6), MonkeyState([734, 380, 50, 57, 1640, 63, 164, 215], 66)],
      [MonkeyState([48, 52], 70), MonkeyState([], 66), MonkeyState([], 6), MonkeyState([734, 380, 50, 57, 1640, 63, 164, 215], 66)],
      [MonkeyState([48, 52], 70), MonkeyState([], 66), MonkeyState([], 6), MonkeyState([734, 380, 50, 57, 1640, 63, 164, 215], 66)],
      [MonkeyState([48, 52, 17], 70), MonkeyState([245, 127, 20, 547, 22, 55, 72], 66), MonkeyState([], 6), MonkeyState([], 74)]);
  }

  lemma ThirdThrows15_0()
    ensures InspectAll(Rule(Mul(19), 23, 2, 3), [48, 52, 17], Third)
      == [Throw(304, 3), Throw(329, 3), Throw(107, 3)]
  {
  }

  lemma ThirdDeliveries15_0()
    ensures Lands([MonkeyState([48, 52, 17], 70), MonkeyState([245, 127, 20, 547, 22, 55, 72], 66), MonkeyState([], 6), MonkeyState([], 74)], [Throw(304, 3), Throw(329, 3), Throw(107, 3)])
    ensures DeliverAll([MonkeyState([48, 52, 17], 70), MonkeyState([245, 127, 20, 547, 22, 55, 72], 66), MonkeyState([], 6), MonkeyState([], 74)], [Throw(304, 3), Throw(329, 3), Throw(107, 3)])
      == [MonkeyState([48, 52, 17], 70), MonkeyState([245, 127, 20, 547, 22, 55, 72], 66), MonkeyState([], 6), MonkeyState([304, 329, 107], 74)]
  {
    DeliverChain([MonkeyState([48, 52, 17], 70), MonkeyState([245, 127, 20, 547, 22, 55, 72], 66), MonkeyState([], 6), MonkeyState([], 74)], [Throw(304, 3), Throw(329, 3), Throw(107, 3)],
      [[MonkeyState([48, 52, 17], 70), MonkeyState([245, 127, 20, 547, 22, 55, 72], 66), MonkeyState([], 6), MonkeyState([], 74)],
       [MonkeyState([48, 52, 17], 70), MonkeyState([245, 127, 20, 547, 22, 55, 72], 66), MonkeyState([], 6), MonkeyState([304], 74)],
       [MonkeyState([48, 52, 17], 70), MonkeyState([245, 127, 20, 547, 22, 55, 72], 66), MonkeyState([], 6), MonkeyState([304, 329], 74)],
       [MonkeyState([48, 52, 17], 70), MonkeyState([245, 127, 20, 547, 22, 55, 72], 66), MonkeyState([], 6), MonkeyState([304, 329, 107], 74)]]);
  }

  lemma ThirdTurn15_0()
    ensures Turn(ExampleRules(), [MonkeyState([48, 52, 17], 70), MonkeyState([245, 127, 20, 547, 22, 55, 72], 66), MonkeyState([], 6), MonkeyState([], 74)], 0, Third)
      == [MonkeyState([], 73), MonkeyState([245, 127, 20, 547, 22, 55, 72], 66), MonkeyState([], 6), MonkeyState([304, 329, 107], 74)]
  {
    ThirdThrows15_0();
    ThirdDeliveries15_0();
  }

  lemma ThirdThrows15_1()
    ensures InspectAll(Rule(Add(6), 19, 2, 0), [245, 127, 20, 547, 22, 55, 72], Third)
      == [Throw(83, 0), Throw(44, 0), Throw(8, 0), Throw(184, 0), Throw(9, 0), Throw(20, 0), Throw(26, 0)]
  {
  }

  lemma ThirdDeliveries15_1()
    ensures Lands([MonkeyState([], 73), MonkeyState([245, 127, 20, 547, 22, 55, 72], 66), MonkeyState([], 6), MonkeyState([304, 329, 107], 74)], [Throw(83, 0), Throw(44, 0), Throw(8, 0), Throw(184, 0), Throw(9, 0), Throw(20, 0), Throw(26, 0)])
    ensures DeliverAll([MonkeyState([], 73), MonkeyState([245, 127, 20, 547, 22, 55, 72], 66), MonkeyState([], 6), MonkeyState([304, 329, 107], 74)], [Throw(83, 0), Throw(44, 0), Throw(8, 0), Throw(184, 0), Throw(9, 0), Throw(20, 0), Throw(26, 0)])
      == [MonkeyState([83, 44, 8, 184, 9, 20, 26], 73), MonkeyState([245, 127, 20, 547, 22, 55, 72], 66), MonkeyState([], 6), MonkeyState([304, 329, 107], 74)]
  {
    DeliverChain([MonkeyState([], 73), MonkeyState([245, 127, 20, 547, 22, 55, 72], 66), MonkeyState([], 6), MonkeyState([304, 329, 107], 74)], [Throw(83, 0), Throw(44, 0), Throw(8, 0), Throw(184, 0), Throw(9, 0), Throw(20, 0), Throw(26, 0)],
      [[MonkeyState([], 73), MonkeyState([245, 127, 20, 547, 22, 55, 72], 66), MonkeyState([], 6), MonkeyState([304, 329, 107], 74)],
       [MonkeyState([83], 73), MonkeyState([245, 127, 20, 547, 22, 55, 72], 66), MonkeyState([], 6), MonkeyState([304, 329, 107], 74)],
       [MonkeyState([83, 44], 73), MonkeyState([245, 127, 20, 547, 22, 55, 72], 66), MonkeyState([], 6), MonkeyState([304, 329, 107], 74)],
       [MonkeyState([83, 44, 8], 73), MonkeyState([245, 127, 20, 547, 22, 55, 72], 66), MonkeyState([], 6), MonkeyState([304, 329, 107], 74)],
       [MonkeyState([83, 44, 8, 184], 73), MonkeyState([245, 127, 20, 547, 22, 55, 72], 66), MonkeyState([], 6), MonkeyState([304, 329, 107], 74)],
       [MonkeyState([83, 44, 8, 184, 9], 73), MonkeyState([245, 127, 20, 547, 22, 55, 72], 66), MonkeyState([], 6), MonkeyState([304, 329, 107], 74)],
       [MonkeyState([83, 44, 8, 184, 9, 20], 73), MonkeyState([245, 127, 20, 547, 22, 55, 72], 66), MonkeyState([], 6), MonkeyState([304, 329, 107], 74)],
       [MonkeyState([83, 44, 8, 184, 9, 20, 26], 73), MonkeyState([245, 127, 20, 547, 22, 55, 72], 66), MonkeyState([], 6), MonkeyState([304, 329, 107], 74)]]);
  }

  lemma ThirdTurn15_1()
    ensures Turn(ExampleRules(), [MonkeyState([], 73), MonkeyState([245, 127, 20, 547, 22, 55, 72], 66), MonkeyState([], 6), MonkeyState([304, 329, 107], 74)], 1, Third)
      == [MonkeyState([83, 44, 8, 184, 9, 20, 26], 73), MonkeyState([], 73), MonkeyState([], 6), MonkeyState([304, 329, 107], 74)]
  {
    ThirdThrows15_1();
    ThirdDeliveries15_1();
  }

  lemma ThirdThrows15_2()
    ensures InspectAll(Rule(Square, 13, 1, 3), [], Third)
      == []
  {
  }

  lemma ThirdDeliveries15_2()
    ensures Lands([MonkeyState([83, 44, 8, 184, 9, 20, 26], 73), MonkeyState([], 73), MonkeyState([], 6), MonkeyState([304, 329, 107], 74)], [])
    ensures DeliverAll([MonkeyState([83, 44, 8, 184, 9, 20, 26], 73), MonkeyState([], 73), MonkeyState([], 6), MonkeyState([304, 329, 107], 74)], [])
      == [MonkeyState([83, 44, 8, 184, 9, 20, 26], 73), MonkeyState([], 73), MonkeyState([], 6), MonkeyState([304, 329, 107], 74)]
  {
    DeliverChain([MonkeyState([83, 44, 8, 184, 9, 20, 26], 73), MonkeyState([], 73), MonkeyState([], 6), MonkeyState([304, 329, 107], 74)], [],
      [[MonkeyState([83, 44, 8, 184, 9, 20, 26], 73), MonkeyState([], 73), MonkeyState([], 6), MonkeyState([304, 329, 107], 74)]]);
  }

  lemma ThirdTurn15_2()
    ensures Turn(ExampleRules(), [MonkeyState([83, 44, 8, 184, 9, 20, 26], 73), MonkeyState([], 73), MonkeyState([], 6), MonkeyState([304, 329, 107], 74)], 2, Third)
      == [MonkeyState([83, 44, 8, 184, 9, 20, 26], 73), MonkeyState([], 73), MonkeyState([], 6), MonkeyState([304, 329, 107], 74)]
  {
    ThirdThrows15_2();
    ThirdDeliveries15_2();
  }

  lemma ThirdThrows15_3()
    ensures InspectAll(Rule(Add(3), 17, 0, 1), [304, 329, 107], Third)
      == [Throw(102, 0), Throw(110, 1), Throw(36, 1)]
  {
  }

  lemma ThirdDeliveries15_3()
    ensures Lands([MonkeyState([83, 44, 8, 184, 9, 20, 26], 73), MonkeyState([], 73), MonkeyState([], 6), MonkeyState([304, 329, 107], 74)], [Throw(102, 0), Throw(110, 1), Throw(36, 1)])
    ensures DeliverAll([MonkeyState([83, 44, 8, 184, 9, 20, 26], 73), MonkeyState([], 73), MonkeyState([], 6), MonkeyState([304, 329, 107], 74)], [Throw(102, 0), Throw(110, 1), Throw(36, 1)])
      == [MonkeyState([83, 44, 8, 184, 9, 20, 26, 102], 73), MonkeyState([110, 36], 73), MonkeyState([], 6), MonkeyState([304, 329, 107], 74)]
  {
    DeliverChain([MonkeyState([83, 44, 8, 184, 9, 20, 26], 73), MonkeyState([], 73), MonkeyState([], 6), MonkeyState([304, 329, 107], 74)], [Throw(102, 0), Throw(110, 1), Throw(36, 1)],
      [[MonkeyState([83, 44, 8, 184, 9, 20, 26], 73), MonkeyState([], 73), MonkeyState([], 6), MonkeyState([304, 329, 107], 74)],
       [MonkeyState([83, 44, 8, 184, 9, 20, 26, 102], 73), MonkeyState([], 73), MonkeyState([], 6), MonkeyState([304, 329, 107], 74)],
       [MonkeyState([83, 44, 8, 184, 9, 20, 26, 102], 73), MonkeyState([110], 73), MonkeyState([], 6), MonkeyState([304, 329, 107], 74)],
       [MonkeyState([83, 44, 8, 184, 9, 20, 26, 102], 73), MonkeyState([110, 36], 73), MonkeyState([], 6), MonkeyState([304, 329, 107], 74)]]);
  }

  lemma ThirdTurn15_3()
    ensures Turn(ExampleRules(), [MonkeyState([83, 44, 8, 184, 9, 20, 26], 73), MonkeyState([], 73), MonkeyState([], 6), MonkeyState([304, 329, 107], 74)], 3, Third)
      == [MonkeyState([83, 44, 8, 184, 9, 20, 26, 102], 73), MonkeyState([110, 36], 73), MonkeyState([], 6), MonkeyState([], 77)]
  {
    ThirdThrows15_3();
    ThirdDeliveries15_3();
  }

  lemma ThirdRound15(ms: seq<MonkeyState>)
    requires ms == [MonkeyState([48, 52, 17], 70), MonkeyState([245, 127, 20, 547, 22, 55, 72], 66), MonkeyState([], 6), MonkeyState([], 74)]
    ensures Round(ExampleRules(), ms, Third)
      == [MonkeyState([83, 44, 8, 184, 9, 20, 26, 102], 73), MonkeyState([110, 36], 73), MonkeyState([], 6), MonkeyState([], 77)]
  {
    ThirdTurn15_0(); ThirdTurn15_1(); ThirdTurn15_2(); ThirdTurn15_3();
    RoundBy(ExampleRules(), ms, Third,
      [MonkeyState([], 73), MonkeyState([245, 127, 20, 547, 22, 55, 72], 66), MonkeyState([], 6), MonkeyState([304, 329, 107], 74)],
      [MonkeyState([83, 44, 8, 184, 9, 20, 26], 73), MonkeyState([], 73), MonkeyState([], 6), MonkeyState([304, 329, 107], 74)],
      [MonkeyState([83, 44, 8, 184, 9, 20, 26], 73), MonkeyState([], 73), MonkeyState([], 6), MonkeyState([304, 329, 107], 74)],
      [MonkeyState([83, 44, 8, 184, 9, 20, 26, 102], 73), MonkeyState([110, 36], 73), MonkeyState([], 6), MonkeyState([], 77)]);
  }

  lemma ThirdThrows16_0()
    ensures InspectAll(Rule(Mul(19), 23, 2, 3), [83, 44, 8, 184, 9, 20, 26, 102], Third)
      == [Throw(525, 3), Throw(278, 3), Throw(50, 3), Throw(1165, 3), Throw(57, 3), Throw(126, 3), Throw(164, 3), Throw(646, 3)]
  {
  }

  lemma ThirdDeliveries16_0()
    ensures Lands([MonkeyState([83, 44, 8, 184, 9, 20, 26, 102], 73), MonkeyState([110, 36], 73), MonkeyState([], 6), MonkeyState([], 77)], [Throw(525, 3), Throw(278, 3), Throw(50, 3), Throw(1165, 3), Throw(57, 3), Throw(126, 3), Throw(164, 3), Throw(646, 3)])
    ensures DeliverAll([MonkeyState([83, 44, 8, 184, 9, 20, 26, 102], 73), MonkeyState([110, 36], 73), MonkeyState([], 6), MonkeyState([], 77)], [Throw(525, 3), Throw(278, 3), Throw(50, 3), Throw(1165, 3), Throw(57, 3), Throw(126, 3), Throw(164, 3), Throw(646, 3)])
      == [MonkeyState([83, 44, 8, 184, 9, 20, 26, 102], 73), MonkeyState([110, 36], 73), MonkeyState([], 6), MonkeyState([525, 278, 50, 1165, 57, 126, 164, 646], 77)]
  {
    DeliverChain([MonkeyState([83, 44, 8, 184, 9, 20, 26, 102], 73), MonkeyState([110, 36], 73), MonkeyState([], 6), MonkeyState([], 77)], [Throw(525, 3), Throw(278, 3), Throw(50, 3), Throw(1165, 3), Throw(57, 3), Throw(126, 3), Throw(164, 3), Throw(646, 3)],
      [[MonkeyState([83, 44, 8, 184, 9, 20, 26, 102], 73), MonkeyState([110, 36], 73), MonkeyState([], 6), MonkeyState([], 77)],
       [MonkeyState([83, 44, 8, 184, 9, 20, 26, 102], 73), MonkeyState([110, 36], 73), MonkeyState([], 6), MonkeyState([525], 77)],
       [MonkeyState([83, 44, 8, 184, 9, 20, 26, 102], 73), MonkeyState([110, 36], 73), MonkeyState([], 6), MonkeyState([525, 278], 77)],
       [MonkeyState([83, 44, 8, 184, 9, 20, 26, 102], 73), MonkeyState([110, 36], 73), MonkeyState([], 6), MonkeyState([525, 278, 50], 77)],
       [MonkeyState([83, 44, 8, 184, 9, 20, 26, 102], 73), MonkeyState([110, 36], 73), MonkeyState([], 6), MonkeyState([525, 278, 50, 1165], 77)],
       [MonkeyState([83, 44, 8, 184, 9, 20, 26, 102], 73), MonkeyState([110, 36], 73), MonkeyState([], 6), MonkeyState([525, 278, 50, 1165, 57], 77)],
       [MonkeyState([83, 44, 8, 184, 9, 20, 26, 102], 73), MonkeyState([110, 36], 73), MonkeyState([], 6), MonkeyState([525, 278, 50, 1165, 57, 126], 77)],
       [MonkeyState([83, 44, 8, 184, 9, 20, 26, 102], 73), MonkeyState([110, 36], 73), MonkeyState([], 6), MonkeyState([525, 278, 50, 1165, 57, 126, 164], 77)],
       [MonkeyState([83, 44, 8, 184, 9, 20, 26, 102], 73), MonkeyState([110, 36], 73), MonkeyState([], 6), MonkeyState([525, 278, 50, 1165, 57, 126, 164, 646], 77)]]);
  }

  lemma ThirdTurn16_0()
    ensures Turn(ExampleRules(), [MonkeyState([83, 44, 8, 184, 9, 20, 26, 102], 73), MonkeyState([110, 36], 73), MonkeyState([], 6), MonkeyState([], 77)], 0, Third)
      == [MonkeyState([], 81), MonkeyState([110, 36], 73), MonkeyState([], 6), MonkeyState([525, 278, 50, 1165, 57, 126, 164, 646], 77)]
  {
    ThirdThrows16_0();
    ThirdDeliveries16_0();
  }

  lemma ThirdThrows16_1()
    ensures InspectAll(Rule(Add(6), 19, 2, 0), [110, 36], Third)
      == [Throw(38, 2), Throw(14, 0)]
  {
  }

  lemma ThirdDeliveries16_1()
    ensures Lands([MonkeyState([], 81), MonkeyState([110, 36], 73), MonkeyState([], 6), MonkeyState([525, 278, 50, 1165, 57, 126, 164, 646], 77)], [Throw(38, 2), Throw(14, 0)])
    ensures DeliverAll([MonkeyState([], 81), MonkeyState([110, 36], 73), MonkeyState([], 6), MonkeyState([525, 278, 50, 1165, 57, 126, 164, 646], 77)], [Throw(38, 2), Throw(14, 0)])
      == [MonkeyState([14], 81), MonkeyState([110, 36], 73), MonkeyState([38], 6), MonkeyState([525, 278, 50, 1165, 57, 126, 164, 646], 77)]
  {
    DeliverChain([MonkeyState([], 81), MonkeyState([110, 36], 73), MonkeyState([], 6), MonkeyState([525, 278, 50, 1165, 57, 126, 164, 646], 77)], [Throw(38, 2), Throw(14, 0)],
      [[MonkeyState([], 81), MonkeyState([110, 36], 73), MonkeyState([], 6), MonkeyState([525, 278, 50, 1165, 57, 126, 164, 646], 77)],
       [MonkeyState([], 81), MonkeyState([110, 36], 73), MonkeyState([38], 6), MonkeyState([525, 278, 50, 1165, 57, 126, 164, 646], 77)],
       [MonkeyState([14], 81), MonkeyState([110, 36], 73), MonkeyState([38], 6), MonkeyState([525, 278, 50, 1165, 57, 126, 164, 646], 77)]]);
  }

  lemma ThirdTurn16_1()
    ensures Turn(ExampleRules(), [MonkeyState([], 81), MonkeyState([110, 36], 73), MonkeyState([], 6), MonkeyState([525, 278, 50, 1165, 57, 126, 164, 646], 77)], 1, Third)
      == [MonkeyState([14], 81), MonkeyState([], 75), MonkeyState([38], 6), MonkeyState([525, 278, 50, 1165, 57, 126, 164, 646], 77)]
  {
    ThirdThrows16_1();
    ThirdDeliveries16_1();
  }

  lemma ThirdThrows16_2()
    ensures InspectAll(Rule(Square, 13, 1, 3), [38], Third)
      == [Throw(481, 1)]
  {
  }

  lemma ThirdDeliveries16_2()
    ensures Lands([MonkeyState([14], 81), MonkeyState([], 75), MonkeyState([38], 6), MonkeyState([525, 278, 50, 1165, 57, 126, 164, 646], 77)], [Throw(481, 1)])
    ensures DeliverAll([MonkeyState([14], 81), MonkeyState([], 75), MonkeyState([38], 6), MonkeyState([525, 278, 50, 1165, 57, 126, 164, 646], 77)], [Throw(481, 1)])
      == [MonkeyState([14], 81), MonkeyState([481], 75), MonkeyState([38], 6), MonkeyState([525, 278, 50, 1165, 57, 126, 164, 646], 77)]
  {
    DeliverChain([MonkeyState([14], 81), MonkeyState([], 75), MonkeyState([38], 6), MonkeyState([525, 278, 50, 1165, 57, 126, 164, 646], 77)], [Throw(481, 1)],
      [[MonkeyState([14], 81), MonkeyState([], 75), MonkeyState([38], 6), MonkeyState([525, 278, 50, 1165, 57, 126, 164, 646], 77)],
       [MonkeyState([14], 81), MonkeyState([481], 75), MonkeyState([38], 6), MonkeyState([525, 278, 50, 1165, 57, 126, 164, 646], 77)]]);
  }

  lemma ThirdTurn16_2()
    ensures Turn(ExampleRules(), [MonkeyState([14], 81), MonkeyState([], 75), MonkeyState([38], 6), MonkeyState([525, 278, 50, 1165, 57, 126, 164, 646], 77)], 2, Third)
      == [MonkeyState([14], 81), MonkeyState([481], 75), MonkeyState([], 7), MonkeyState([525, 278, 50, 1165, 57, 126, 164, 646], 77)]
  {
    ThirdThrows16_2();
    ThirdDeliveries16_2();
  }

  lemma ThirdThrows16_3()
    ensures InspectAll(Rule(Add(3), 17, 0, 1), [525, 278, 50, 1165, 57, 126, 164, 646], Third)
      == [Throw(176, 1), Throw(93, 1), Throw(17, 0), Throw(389, 1), Throw(20, 1), Throw(43, 1), Throw(55, 1), Throw(216, 1)]
  {
  }

  lemma ThirdDeliveries16_3()
    ensures Lands([MonkeyState([14], 81), MonkeyState([481], 75), MonkeyState([], 7), MonkeyState([525, 278, 50, 1165, 57, 126, 164, 646], 77)], [Throw(176, 1), Throw(93, 1), Throw(17, 0), Throw(389, 1), Throw(20, 1), Throw(43, 1), Throw(55, 1), Throw(216, 1)])
    ensures DeliverAll([MonkeyState([14], 81), MonkeyState([481], 75), MonkeyState([], 7), MonkeyState([525, 278, 50, 1165, 57, 126, 164, 646], 77)], [Throw(176, 1), Throw(93, 1), Throw(17, 0), Throw(389, 1), Throw(20, 1), Throw(43, 1), Throw(55, 1), Throw(216, 1)])
      == [MonkeyState([14, 17], 81), MonkeyState([481, 176, 93, 389, 20, 43, 55, 216], 75), MonkeyState([], 7), MonkeyState([525, 278, 50, 1165, 57, 126, 164, 646], 77)]
  {
    DeliverChain([MonkeyState([14], 81), MonkeyState([481], 75), MonkeyState([], 7), MonkeyState([525, 278, 50, 1165, 57, 126, 164, 646], 77)], [Throw(176, 1), Throw(93, 1), Throw(17, 0), Throw(389, 1), Throw(20, 1), Throw(43, 1), Throw(55, 1), Throw(216, 1)],
      [[MonkeyState([14], 81), MonkeyState([481], 75), MonkeyState([], 7), MonkeyState([525, 278, 50, 1165, 57, 126, 164, 646], 77)],
       [MonkeyState([14], 81), MonkeyState([481, 176], 75), MonkeyState([], 7), MonkeyState([525, 278, 50, 1165, 57, 126, 164, 646], 77)],
       [MonkeyState([14], 81), MonkeyState([481, 176, 93], 75), MonkeyState([], 7), MonkeyState([525, 278, 50, 1165, 57, 126, 164, 646], 77)],
       [MonkeyState([14, 17], 81), MonkeyState([481, 176, 93], 75), MonkeyState([], 7), MonkeyState([525, 278, 50, 1165, 57, 126, 164, 646], 77)],
       [MonkeyState([14, 17], 81), MonkeyState([481, 176, 93, 389], 75), MonkeyState([], 7), MonkeyState([525, 278, 50, 1165, 57, 126, 164, 646], 77)],
       [MonkeyState([14, 17], 81), MonkeyState([481, 176, 93, 389, 20], 75), MonkeyState([], 7), MonkeyState([525, 278, 50, 1165, 57, 126, 164, 646], 77)],
       [MonkeyState([14, 17], 81), MonkeyState([481, 176, 93, 389, 20, 43], 75), MonkeyState([], 7), MonkeyState([525, 278, 50, 1165, 57, 126, 164, 646], 77)],
       [MonkeyState([14, 17], 81), MonkeyState([481, 176, 93, 389, 20, 43, 55], 75), MonkeyState([], 7), MonkeyState([525, 278, 50, 1165, 57, 126, 164, 646], 77)],
       [MonkeyState([14, 17], 81), MonkeyState([481, 176, 93, 389, 20, 43, 55, 216], 75), MonkeyState([], 7), MonkeyState([525, 278, 50, 1165, 57, 126, 164, 646], 77)]]);
  }

  lemma ThirdTurn16_3()
    ensures Turn(ExampleRules(), [MonkeyState([14], 81), MonkeyState([481], 75), MonkeyState([], 7), MonkeyState([525, 278, 50, 1165, 57, 126, 164, 646], 77)], 3, Third)
      == [MonkeyState([14, 17], 81), MonkeyState([481, 176, 93, 389, 20, 43, 55, 216], 75), MonkeyState([], 7), MonkeyState([], 85)]
  {
    ThirdThrows16_3();
    ThirdDeliveries16_3();
  }

  lemma ThirdRound16(ms: seq<MonkeyState>)
    requires ms == [MonkeyState([83, 44, 8, 184, 9, 20, 26, 102], 73), MonkeyState([110, 36], 73), MonkeyState([], 6), MonkeyState([], 77)]
    ensures Round(ExampleRules(), ms, Third)
      == [MonkeyState([14, 17], 81), MonkeyState([481, 176, 93, 389, 20, 43, 55, 216], 75), MonkeyState([], 7), MonkeyState([], 85)]
  {
    ThirdTurn16_0(); ThirdTurn16_1(); ThirdTurn16_2(); ThirdTurn16_3();
    RoundBy(ExampleRules(), ms, Third,
      [MonkeyState([], 81), MonkeyState([110, 36], 73), MonkeyState([], 6), MonkeyState([525, 278, 50, 1165, 57, 126, 164, 646], 77)],
      [MonkeyState([14], 81), MonkeyState([], 75), MonkeyState([38], 6), MonkeyState([525, 278, 50, 1165, 57, 126, 164, 646], 77)],
      [MonkeyState([14], 81), MonkeyState([481], 75), MonkeyState([], 7), MonkeyState([525, 278, 50, 1165, 57, 126, 164, 646], 77)],
      [MonkeyState([14, 17], 81), MonkeyState([481, 176, 93, 389, 20, 43, 55, 216], 75), MonkeyState([], 7), MonkeyState([], 85)]);
  }

  lemma ThirdThrows17_0()
    ensures InspectAll(Rule(Mul(19), 23, 2, 3), [14, 17], Third)
      == [Throw(88, 3), Throw(107, 3)]
  {
  }

  lemma ThirdDeliveries17_0()
    ensures Lands([MonkeyState([14, 17], 81), MonkeyState([481, 176, 93, 389, 20, 43, 55, 216], 75), MonkeyState([], 7), MonkeyState([], 85)], [Throw(88, 3), Throw(107, 3)])
    ensures DeliverAll([MonkeyState([14, 17], 81), MonkeyState([481, 176, 93, 389, 20, 43, 55, 216], 75), MonkeyState([], 7), MonkeyState([], 85)], [Throw(88, 3), Throw(107, 3)])
      == [MonkeyState([14, 17], 81), MonkeyState([481, 176, 93, 389, 20, 43, 55, 216], 75), MonkeyState([], 7), MonkeyState([88, 107], 85)]
  {
    DeliverChain([MonkeyState([14, 17], 81), MonkeyState([481, 176, 93, 389, 20, 43, 55, 216], 75), MonkeyState([], 7), MonkeyState([], 85)], [Throw(88, 3), Throw(107, 3)],
      [[MonkeyState([14, 17], 81), MonkeyState([481, 176, 93, 389, 20, 43, 55, 216], 75), MonkeyState([], 7), MonkeyState([], 85)],
       [MonkeyState([14, 17], 81), MonkeyState([481, 176, 93, 389, 20, 43, 55, 216], 75), MonkeyState([], 7), MonkeyState([88], 85)],
       [MonkeyState([14, 17], 81), MonkeyState([481, 176, 93, 389, 20, 43, 55, 216], 75), MonkeyState([], 7), MonkeyState([88, 107], 85)]]);
  }

  lemma ThirdTurn17_0()
    ensures Turn(ExampleRules(), [MonkeyState([14, 17], 81), MonkeyState([481, 176, 93, 389, 20, 43, 55, 216], 75), MonkeyState([], 7), MonkeyState([], 85)], 0, Third)
      == [MonkeyState([], 83), MonkeyState([481, 176, 93, 389, 20, 43, 55, 216], 75), MonkeyState([], 7), MonkeyState([88, 107], 85)]
  {
    ThirdThrows17_0();
    ThirdDeliveries17_0();
  }

  lemma ThirdThrows17_1()
    ensures InspectAll(Rule(Add(6), 19, 2, 0), [481, 176, 93, 389, 20, 43, 55, 216], Third)
      == [Throw(162, 0), Throw(60, 0), Throw(33, 0), Throw(131, 0), Throw(8, 0), Throw(16, 0), Throw(20, 0), Throw(74, 0)]
  {
  }

  lemma ThirdDeliveries17_1()
    ensures Lands([MonkeyState([], 83), MonkeyState([481, 176, 93, 389, 20, 43, 55, 216], 75), MonkeyState([], 7), MonkeyState([88, 107], 85)], [Throw(162, 0), Throw(60, 0), Throw(33, 0), Throw(131, 0), Throw(8, 0), Throw(16, 0), Throw(20, 0), Throw(74, 0)])
    ensures DeliverAll([MonkeyState([], 83), MonkeyState([481, 176, 93, 389, 20, 43, 55, 216], 75), MonkeyState([], 7), MonkeyState([88, 107], 85)], [Throw(162, 0), Throw(60, 0), Throw(33, 0), Throw(131, 0), Throw(8, 0), Throw(16, 0), Throw(20, 0), Throw(74, 0)])
      == [MonkeyState([162, 60, 33, 131, 8, 16, 20, 74], 83), MonkeyState([481, 176, 93, 389, 20, 43, 55, 216], 75), MonkeyState([], 7), MonkeyState([88, 107], 85)]
  {
    DeliverChain([MonkeyState([], 83), MonkeyState([481, 176, 93, 389, 20, 43, 55, 216], 75), MonkeyState([], 7), MonkeyState([88, 107], 85)], [Throw(162, 0), Throw(60, 0), Throw(33, 0), Throw(131, 0), Throw(8, 0), Throw(16, 0), Throw(20, 0), Throw(74, 0)],
      [[MonkeyState([], 83), MonkeyState([481, 176, 93, 389, 20, 43, 55, 216], 75), MonkeyState([], 7), MonkeyState([88, 107], 85)],
       [MonkeyState([162], 83), MonkeyState([481, 176, 93, 389, 20, 43, 55, 216], 75), MonkeyState([], 7), MonkeyState([88, 107], 85)],
       [MonkeyState([162, 60], 83), MonkeyState([481, 176, 93, 389, 20, 43, 55, 216], 75), MonkeyState([], 7), MonkeyState([88, 107], 85)],
       [MonkeyState([162, 60, 33], 83), MonkeyState([481, 176, 93, 389, 20, 43, 55, 216], 75), MonkeyState([], 7), MonkeyState([88, 107], 85)],
       [MonkeyState([162, 60, 33, 131], 83), MonkeyState([481, 176, 93, 389, 20, 43, 55, 216], 75), MonkeyState([], 7), MonkeyState([88, 107], 85)],
       [MonkeyState([162, 60, 33, 131, 8], 83), MonkeyState([481, 176, 93, 389, 20, 43, 55, 216], 75), MonkeyState([], 7), MonkeyState([88, 107], 85)],
       [MonkeyState([162, 60, 33, 131, 8, 16], 83), MonkeyState([481, 176, 93, 389, 20, 43, 55, 216], 75), MonkeyState([], 7), MonkeyState([88, 107], 85)],
       [MonkeyState([162, 60, 33, 131, 8, 16, 20], 83), MonkeyState([481, 176, 93, 389, 20, 43, 55, 216], 75), MonkeyState([], 7), MonkeyState([88, 107], 85)],
       [MonkeyState([162, 60, 33, 131, 8, 16, 20, 74], 83), MonkeyState([481, 176, 93, 389, 20, 43, 55, 216], 75), MonkeyState([], 7), MonkeyState([88, 107], 85)]]);
  }

  lemma ThirdTurn17_1()
    ensures Turn(ExampleRules(), [MonkeyState([], 83), MonkeyState([481, 176, 93, 389, 20, 43, 55, 216], 75), MonkeyState([], 7), MonkeyState([88, 107], 85)], 1, Third)
      == [MonkeyState([162, 60, 33, 131, 8, 16, 20, 74], 83), MonkeyState([], 83), MonkeyState([], 7), MonkeyState([88, 107], 85)]
  {
    ThirdThrows17_1();
    ThirdDeliveries17_1();
  }

  lemma ThirdThrows17_2()
    ensures InspectAll(Rule(Square, 13, 1, 3), [], Third)
      == []
  {
  }

  lemma ThirdDeliveries17_2()
    ensures Lands([MonkeyState([162, 60, 33, 131, 8, 16, 20, 74], 83), MonkeyState([], 83), MonkeyState([], 7), MonkeyState([88, 107], 85)], [])
    ensures DeliverAll([MonkeyState([162, 60, 33, 131, 8, 16, 20, 74], 83), MonkeyState([], 83), MonkeyState([], 7), MonkeyState([88, 107], 85)], [])
      == [MonkeyState([162, 60, 33, 131, 8, 16, 20, 74], 83), MonkeyState([], 83), MonkeyState([], 7), MonkeyState([88, 107], 85)]
  {
    DeliverChain([MonkeyState([162, 60, 33, 131, 8, 16, 20, 74], 83), MonkeyState([], 83), MonkeyState([], 7), MonkeyState([88, 107], 85)], [],
      [[MonkeyState([162, 60, 33, 131, 8, 16, 20, 74], 83), MonkeyState([], 83), MonkeyState([], 7), MonkeyState([88, 107], 85)]]);
  }

  lemma ThirdTurn17_2()
    ensures Turn(ExampleRules(), [MonkeyState([162, 60, 33, 131, 8, 16, 20, 74], 83), MonkeyState([], 83), MonkeyState([], 7), MonkeyState([88, 107], 85)], 2, Third)
      == [MonkeyState([162, 60, 33, 131, 8, 16, 20, 74], 83), MonkeyState([], 83), MonkeyState([], 7), MonkeyState([88, 107], 85)]
  {
    ThirdThrows17_2();
    ThirdDeliveries17_2();
  }

  lemma ThirdThrows17_3()
    ensures InspectAll(Rule(Add(3), 17, 0, 1), [88, 107], Third)
      == [Throw(30, 1), Throw(36, 1)]
  {
  }

  lemma ThirdDeliveries17_3()
    ensures Lands([MonkeyState([162, 60, 33, 131, 8, 16, 20, 74], 83), MonkeyState([], 83), MonkeyState([], 7), MonkeyState([88, 107], 85)], [Throw(30, 1), Throw(36, 1)])
    ensures DeliverAll([MonkeyState([162, 60, 33, 131, 8, 16, 20, 74], 83), MonkeyState([], 83), MonkeyState([], 7), MonkeyState([88, 107], 85)], [Throw(30, 1), Throw(36, 1)])
      == [MonkeyState([162, 60, 33, 131, 8, 16, 20, 74], 83), MonkeyState([30, 36], 83), MonkeyState([], 7), MonkeyState([88, 107], 85)]
  {
    DeliverChain([MonkeyState([162, 60, 33, 131, 8, 16, 20, 74], 83), MonkeyState([], 83), MonkeyState([], 7), MonkeyState([88, 107], 85)], [Throw(30, 1), Throw(36, 1)],
      [[MonkeyState([162, 60, 33, 131, 8, 16, 20, 74], 83), MonkeyState([], 83), MonkeyState([], 7), MonkeyState([88, 107], 85)],
       [MonkeyState([162, 60, 33, 131, 8, 16, 20, 74], 83), MonkeyState([30], 83), MonkeyState([], 7), MonkeyState([88, 107], 85)],
       [MonkeyState([162, 60, 33, 131, 8, 16, 20, 74], 83), MonkeyState([30, 36], 83), MonkeyState([], 7), MonkeyState([88, 107], 85)]]);
  }

  lemma ThirdTurn17_3()
    ensures Turn(ExampleRules(), [MonkeyState([162, 60, 33, 131, 8, 16, 20, 74], 83), MonkeyState([], 83), MonkeyState([], 7), MonkeyState([88, 107], 85)], 3, Third)
      == [MonkeyState([162, 60, 33, 131, 8, 16, 20, 74], 83), MonkeyState([30, 36], 83), MonkeyState([], 7), MonkeyState([], 87)]
  {
    ThirdThrows17_3();
    ThirdDeliveries17_3();
  }

  lemma ThirdRound17(ms: seq<MonkeyState>)
    requires ms == [MonkeyState([14, 17], 81), MonkeyState([481, 176, 93, 389, 20, 43, 55, 216], 75), MonkeyState([], 7), MonkeyState([], 85)]
    ensures Round(ExampleRules(), ms, Third)
      == [MonkeyState([162, 60, 33, 131, 8, 16, 20, 74], 83), MonkeyState([30, 36], 83), MonkeyState([], 7), MonkeyState([], 87)]
  {
    ThirdTurn17_0(); ThirdTurn17_1(); ThirdTurn17_2(); ThirdTurn17_3();
    RoundBy(ExampleRules(), ms, Third,
      [MonkeyState([], 83), MonkeyState([481, 176, 93, 389, 20, 43, 55, 216], 75), MonkeyState([], 7), MonkeyState([88, 107], 85)],
      [MonkeyState([162, 60, 33, 131, 8, 16, 20, 74], 83), MonkeyState([], 83), MonkeyState([], 7), MonkeyState([88, 107], 85)],
      [MonkeyState([162, 60, 33, 131, 8, 16, 20, 74], 83), MonkeyState([], 83), MonkeyState([], 7), MonkeyState([88, 107], 85)],
      [MonkeyState([162, 60, 33, 131, 8, 16, 20, 74], 83), MonkeyState([30, 36], 83), MonkeyState([], 7), MonkeyState([], 87)]);
  }

  lemma ThirdThrows18_0()
    ensures InspectAll(Rule(Mul(19), 23, 2, 3), [162, 60, 33, 131, 8, 16, 20, 74], Third)
      == [Throw(1026, 3), Throw(380, 3), Throw(209, 3), Throw(829, 3), Throw(50, 3), Throw(101, 3), Throw(126, 3), Throw(468, 3)]
  {
  }

  lemma ThirdDeliveries18_0()
    ensures Lands([MonkeyState([162, 60, 33, 131, 8, 16, 20, 74], 83), MonkeyState([30, 36], 83), MonkeyState([], 7), MonkeyState([], 87)], [Throw(1026, 3), Throw(380, 3), Throw(209, 3), Throw(829, 3), Throw(50, 3), Throw(101, 3), Throw(126, 3), Throw(468, 3)])
    ensures DeliverAll([MonkeyState([162, 60, 33, 131, 8, 16, 20, 74], 83), MonkeyState([30, 36], 83), MonkeyState([], 7), MonkeyState([], 87)], [Throw(1026, 3), Throw(380, 3), Throw(209, 3), Throw(829, 3), Throw(50, 3), Throw(101, 3), Throw(126, 3), Throw(468, 3)])
      == [MonkeyState([162, 60, 33, 131, 8, 16, 20, 74], 83), MonkeyState([30, 36], 83), MonkeyState([], 7), MonkeyState([1026, 380, 209, 829, 50, 101, 126, 468], 87)]
  {
    DeliverChain([MonkeyState([162, 60, 33, 131, 8, 16, 20, 74], 83), MonkeyState([30, 36], 83), MonkeyState([], 7), MonkeyState([], 87)], [Throw(1026, 3), Throw(380, 3), Throw(209, 3), Throw(829, 3), Throw(50, 3), Throw(101, 3), Throw(126, 3), Throw(468, 3)],
      [[MonkeyState([162, 60, 33, 131, 8, 16, 20, 74], 83), MonkeyState([30, 36], 83), MonkeyState([], 7), MonkeyState([], 87)],
       [MonkeyState([162, 60, 33, 131, 8, 16, 20, 74], 83), MonkeyState([30, 36], 83), MonkeyState([], 7), MonkeyState([1026], 87)],
       [MonkeyState([162, 60, 33, 131, 8, 16, 20, 74], 83), MonkeyState([30, 36], 83), MonkeyState([], 7), MonkeyState([1026, 380], 87)],
       [MonkeyState([162, 60, 33, 131, 8, 16, 20, 74], 83), MonkeyState([30, 36], 83), MonkeyState([], 7), MonkeyState([1026, 380, 209], 87)],
       [MonkeyState([162, 60, 33, 131, 8, 16, 20, 74], 83), MonkeyState([30, 36], 83), MonkeyState([], 7), MonkeyState([1026, 380, 209, 829], 87)],
       [MonkeyState([162, 60, 33, 131, 8, 16, 20, 74], 83), MonkeyState([30, 36], 83), MonkeyState([], 7), MonkeyState([1026, 380, 209, 829, 50], 87)],
       [MonkeyState([162, 60, 33, 131, 8, 16, 20, 74], 83), MonkeyState([30, 36], 83), MonkeyState([], 7), MonkeyState([1026, 380, 209, 829, 50, 101], 87)],
       [MonkeyState([162, 60, 33, 131, 8, 16, 20, 74], 83), MonkeyState([30, 36], 83), MonkeyState([], 7), MonkeyState([1026, 380, 209, 829, 50, 101, 126], 87)],
       [MonkeyState([162, 60, 33, 131, 8, 16, 20, 74], 83), MonkeyState([30, 36], 83), MonkeyState([], 7), MonkeyState([1026, 380, 209, 829, 50, 101, 126, 468], 87)]]);
  }

  lemma ThirdTurn18_0()
    ensures Turn(ExampleRules(), [MonkeyState([162, 60, 33, 131, 8, 16, 20, 74], 83), MonkeyState([30, 36], 83), MonkeyState([], 7), MonkeyState([], 87)], 0, Third)
      == [MonkeyState([], 91), MonkeyState([30, 36], 83), MonkeyState([], 7), MonkeyState([1026, 380, 209, 829, 50, 101, 126, 468], 87)]
  {
    ThirdThrows18_0();
    ThirdDeliveries18_0();
  }

  lemma ThirdThrows18_1()
    ensures InspectAll(Rule(Add(6), 19, 2, 0), [30, 36], Third)
      == [Throw(12, 0), Throw(14, 0)]
  {
  }

  lemma ThirdDeliveries18_1()
    ensures Lands([MonkeyState([], 91), MonkeyState([30, 36], 83), MonkeyState([], 7), MonkeyState([1026, 380, 209, 829, 50, 101, 126, 468], 87)], [Throw(12, 0), Throw(14, 0)])
    ensures DeliverAll([MonkeyState([], 91), MonkeyState([30, 36], 83), MonkeyState([], 7), MonkeyState([1026, 380, 209, 829, 50, 101, 126, 468], 87)], [Throw(12, 0), Throw(14, 0)])
      == [MonkeyState([12, 14], 91), MonkeyState([30, 36], 83), MonkeyState([], 7), MonkeyState([1026, 380, 209, 829, 50, 101, 126, 468], 87)]
  {
    DeliverChain([MonkeyState([], 91), MonkeyState([30, 36], 83), MonkeyState([], 7), MonkeyState([1026, 380, 209, 829, 50, 101, 126, 468], 87)], [Throw(12, 0), Throw(14, 0)],
      [[MonkeyState([], 91), MonkeyState([30, 36], 83), MonkeyState([], 7), MonkeyState([1026, 380, 209, 829, 50, 101, 126, 468], 87)],
       [MonkeyState([12], 91), MonkeyState([30, 36], 83), MonkeyState([], 7), MonkeyState([1026, 380, 209, 829, 50, 101, 126, 468], 87)],
       [MonkeyState([12, 14], 91), MonkeyState([30, 36], 83), MonkeyState([], 7), MonkeyState([1026, 380, 209, 829, 50, 101, 126, 468], 87)]]);
  }

  lemma ThirdTurn18_1()
    ensures Turn(ExampleRules(), [MonkeyState([], 91), MonkeyState([30, 36], 83), MonkeyState([], 7), MonkeyState([1026, 380, 209, 829, 50, 101, 126, 468], 87)], 1, Third)
      == [MonkeyState([12, 14], 91), MonkeyState([], 85), MonkeyState([], 7), MonkeyState([1026, 380, 209, 829, 50, 101, 126, 468], 87)]
  {
    ThirdThrows18_1();
    ThirdDeliveries18_1();
  }

  lemma ThirdThrows18_2()
    ensures InspectAll(Rule(Square, 13, 1, 3), [], Third)
      == []
  {
  }

  lemma ThirdDeliveries18_2()
    ensures Lands([MonkeyState([12, 14], 91), MonkeyState([], 85), MonkeyState([], 7), MonkeyState([1026, 380, 209, 829, 50, 101, 126, 468], 87)], [])
    ensures DeliverAll([MonkeyState([12, 14], 91), MonkeyState([], 85), MonkeyState([], 7), MonkeyState([1026, 380, 209, 829, 50, 101, 126, 468], 87)], [])
      == [MonkeyState([12, 14], 91), MonkeyState([], 85), MonkeyState([], 7), MonkeyState([1026, 380, 209, 829, 50, 101, 126, 468], 87)]
  {
    DeliverChain([MonkeyState([12, 14], 91), MonkeyState([], 85), MonkeyState([], 7), MonkeyState([1026, 380, 209, 829, 50, 101, 126, 468], 87)], [],
      [[MonkeyState([12, 14], 91), MonkeyState([], 85), MonkeyState([], 7), MonkeyState([1026, 380, 209, 829, 50, 101, 126, 468], 87)]]);
  }

  lemma ThirdTurn18_2()
    ensures Turn(ExampleRules(), [MonkeyState([12, 14], 91), MonkeyState([], 85), MonkeyState([], 7), MonkeyState([1026, 380, 209, 829, 50, 101, 126, 468], 87)], 2, Third)
      == [MonkeyState([12, 14], 91), MonkeyState([], 85), MonkeyState([], 7), MonkeyState([1026, 380, 209, 829, 50, 101, 126, 468], 87)]
  {
    ThirdThrows18_2();
    ThirdDeliveries18_2();
  }

  lemma ThirdThrows18_3()
    ensures InspectAll(Rule(Add(3), 17, 0, 1), [1026, 380, 209, 829, 50, 101, 126, 468], Third)
      == [Throw(343, 1), Throw(127, 1), Throw(70, 1), Throw(277, 1), Throw(17, 0), Throw(34, 0), Throw(43, 1), Throw(157, 1)]
  {
  }

  lemma ThirdDeliveries18_3()
    ensures Lands([MonkeyState([12, 14], 91), MonkeyState([], 85), MonkeyState([], 7), MonkeyState([1026, 380, 209, 829, 50, 101, 126, 468], 87)], [Throw(343, 1), Throw(127, 1), Throw(70, 1), Throw(277, 1), Throw(17, 0), Throw(34, 0), Throw(43, 1), Throw(157, 1)])
    ensures DeliverAll([MonkeyState([12, 14], 91), MonkeyState([], 85), MonkeyState([], 7), MonkeyState([1026, 380, 209, 829, 50, 101, 126, 468], 87)], [Throw(343, 1), Throw(127, 1), Throw(70, 1), Throw(277, 1), Throw(17, 0), Throw(34, 0), Throw(43, 1), Throw(157, 1)])
      == [MonkeyState([12, 14, 17, 34], 91), MonkeyState([343, 127, 70, 277, 43, 157], 85), MonkeyState([], 7), MonkeyState([1026, 380, 209, 829, 50, 101, 126, 468], 87)]
  {
    DeliverChain([MonkeyState([12, 14], 91), MonkeyState([], 85), MonkeyState([], 7), MonkeyState([1026, 380, 209, 829, 50, 101, 126, 468], 87)], [Throw(343, 1), Throw(127, 1), Throw(70, 1), Throw(277, 1), Throw(17, 0), Throw(34, 0), Throw(43, 1), Throw(157, 1)],
      [[MonkeyState([12, 14], 91), MonkeyState([], 85), MonkeyState([], 7), MonkeyState([1026, 380, 209, 829, 50, 101, 126, 468], 87)],
       [MonkeyState([12, 14], 91), MonkeyState([343], 85), MonkeyState([], 7), MonkeyState([1026, 380, 209, 829, 50, 101, 126, 468], 87)],
       [MonkeyState([12, 14], 91), MonkeyState([343, 127], 85), MonkeyState([], 7), MonkeyState([1026, 380, 209, 829, 50, 101, 126, 468], 87)],
       [MonkeyState([12, 14], 91), MonkeyState([343, 127, 70], 85), MonkeyState([], 7), MonkeyState([1026, 380, 209, 829, 50, 101, 126, 468], 87)],
       [MonkeyState([12, 14], 91), MonkeyState([343, 127, 70, 277], 85), MonkeyState([], 7), MonkeyState([1026, 380, 209, 829, 50, 101, 126, 468], 87)],
       [MonkeyState([12, 14, 17], 91), MonkeyState([343, 127, 70, 277], 85), MonkeyState([], 7), MonkeyState([1026, 380, 209, 829, 50, 101, 126, 468], 87)],
       [MonkeyState([12, 14, 17, 34], 91), MonkeyState([343, 127, 70, 277], 85), MonkeyState([], 7), MonkeyState([1026, 380, 209, 829, 50, 101, 126, 468], 87)],
       [MonkeyState([12, 14, 17, 34], 91), MonkeyState([343, 127, 70, 277, 43], 85), MonkeyState([], 7), MonkeyState([1026, 380, 209, 829, 50, 101, 126, 468], 87)],
       [MonkeyState([12, 14, 17, 34], 91), MonkeyState([343, 127, 70, 277, 43, 157], 85), MonkeyState([], 7), MonkeyState([1026, 380, 209, 829, 50, 101, 126, 468], 87)]]);
  }

  lemma ThirdTurn18_3()
    ensures Turn(ExampleRules(), [MonkeyState([12, 14], 91), MonkeyState([], 85), MonkeyState([], 7), MonkeyState([1026, 380, 209, 829, 50, 101, 126, 468], 87)], 3, Third)
      == [MonkeyState([12, 14, 17, 34], 91), MonkeyState([343, 127, 70, 277, 43, 157], 85), MonkeyState([], 7), MonkeyState([], 95)]
  {
    ThirdThrows18_3();
    ThirdDeliveries18_3();
  }

  lemma ThirdRound18(ms: seq<MonkeyState>)
    requires ms == [MonkeyState([162, 60, 33, 131, 8, 16, 20, 74], 83), MonkeyState([30, 36], 83), MonkeyState([], 7), MonkeyState([], 87)]
    ensures Round(ExampleRules(), ms, Third)
      == [MonkeyState([12, 14, 17, 34], 91), MonkeyState([343, 127, 70, 277, 43, 157], 85), MonkeyState([], 7), MonkeyState([], 95)]
  {
    ThirdTurn18_0(); ThirdTurn18_1(); ThirdTurn18_2(); ThirdTurn18_3();
    RoundBy(ExampleRules(), ms, Third,
      [MonkeyState([], 91), MonkeyState([30, 36], 83), MonkeyState([], 7), MonkeyState([1026, 380, 209, 829, 50, 101, 126, 468], 87)],
      [MonkeyState([12, 14], 91), MonkeyState([], 85), MonkeyState([], 7), MonkeyState([1026, 380, 209, 829, 50, 101, 126, 468], 87)],
      [MonkeyState([12, 14], 91), MonkeyState([], 85), MonkeyState([], 7), MonkeyState([1026, 380, 209, 829, 50, 101, 126, 468], 87)],
      [MonkeyState([12, 14, 17, 34], 91), MonkeyState([343, 127, 70, 277, 43, 157], 85), MonkeyState([], 7), MonkeyState([], 95)]);
  }

  lemma ThirdThrows19_0()
    ensures InspectAll(Rule(Mul(19), 23, 2, 3), [12, 14, 17, 34], Third)
      == [Throw(76, 3), Throw(88, 3), Throw(107, 3), Throw(215, 3)]
  {
  }

  lemma ThirdDeliveries19_0()
    ensures Lands([MonkeyState([12, 14, 17, 34], 91), MonkeyState([343, 127, 70, 277, 43, 157], 85), MonkeyState([], 7), MonkeyState([], 95)], [Throw(76, 3), Throw(88, 3), Throw(107, 3), Throw(215, 3)])
    ensures DeliverAll([MonkeyState([12, 14, 17, 34], 91), MonkeyState([343, 127, 70, 277, 43, 157], 85), MonkeyState([], 7), MonkeyState([], 95)], [Throw(76, 3), Throw(88, 3), Throw(107, 3), Throw(215, 3)])
      == [MonkeyState([12, 14, 17, 34], 91), MonkeyState([343, 127, 70, 277, 43, 157], 85), MonkeyState([], 7), MonkeyState([76, 88, 107, 215], 95)]
  {
    DeliverChain([MonkeyState([12, 14, 17, 34], 91), MonkeyState([343, 127, 70, 277, 43, 157], 85), MonkeyState([], 7), MonkeyState([], 95)], [Throw(76, 3), Throw(88, 3), Throw(107, 3), Throw(215, 3)],
      [[MonkeyState([12, 14, 17, 34], 91), MonkeyState([343, 127, 70, 277, 43, 157], 85), MonkeyState([], 7), MonkeyState([], 95)],
       [MonkeyState([12, 14, 17, 34], 91), MonkeyState([343, 127, 70, 277, 43, 157], 85), MonkeyState([], 7), MonkeyState([76], 95)],
       [MonkeyState([12, 14, 17, 34], 91), MonkeyState([343, 127, 70, 277, 43, 157], 85), MonkeyState([], 7), MonkeyState([76, 88], 95)],
       [MonkeyState([12, 14, 17, 34], 91), MonkeyState([343, 127, 70, 277, 43, 157], 85), MonkeyState([], 7), MonkeyState([76, 88, 107], 95)],
       [MonkeyState([12, 14, 17, 34], 91), MonkeyState([343, 127, 70, 277, 43, 157], 85), MonkeyState([], 7), MonkeyState([76, 88, 107, 215], 95)]]);
  }

  lemma ThirdTurn19_0()
    ensures Turn(ExampleRules(), [MonkeyState([12, 14, 17, 34], 91), MonkeyState([343, 127, 70, 277, 43, 157], 85), MonkeyState([], 7), MonkeyState([], 95)], 0, Third)
      == [MonkeyState([], 95), MonkeyState([343, 127, 70, 277, 43, 157], 85), MonkeyState([], 7), MonkeyState([76, 88, 107, 215], 95)]
  {
    ThirdThrows19_0();
    ThirdDeliveries19_0();
  }

  lemma ThirdThrows19_1()
    ensures InspectAll(Rule(Add(6), 19, 2, 0), [343, 127, 70, 277, 43, 157], Third)
      == [Throw(116, 0), Throw(44, 0), Throw(25, 0), Throw(94, 0), Throw(16, 0), Throw(54, 0)]
  {
  }

  lemma ThirdDeliveries19_1()
    ensures Lands([MonkeyState([], 95), MonkeyState([343, 127, 70, 277, 43, 157], 85), MonkeyState([], 7), MonkeyState([76, 88, 107, 215], 95)], [Throw(116, 0), Throw(44, 0), Throw(25, 0), Throw(94, 0), Throw(16, 0), Throw(54, 0)])
    ensures DeliverAll([MonkeyState([], 95), MonkeyState([343, 127, 70, 277, 43, 157], 85), MonkeyState([], 7), MonkeyState([76, 88, 107, 215], 95)], [Throw(116, 0), Throw(44, 0), Throw(25, 0), Throw(94, 0), Throw(16, 0), Throw(54, 0)])
      == [MonkeyState([116, 44, 25, 94, 16, 54], 95), MonkeyState([343, 127, 70, 277, 43, 157], 85), MonkeyState([], 7), MonkeyState([76, 88, 107, 215], 95)]
  {
    DeliverChain([MonkeyState([], 95), MonkeyState([343, 127, 70, 277, 43, 157], 85), MonkeyState([], 7), MonkeyState([76, 88, 107, 215], 95)], [Throw(116, 0), Throw(44, 0), Throw(25, 0), Throw(94, 0), Throw(16, 0), Throw(54, 0)],
      [[MonkeyState([], 95), MonkeyState([343, 127, 70, 277, 43, 157], 85), MonkeyState([], 7), MonkeyState([76, 88, 107, 215], 95)],
       [MonkeyState([116], 95), MonkeyState([343, 127, 70, 277, 43, 157], 85), MonkeyState([], 7), MonkeyState([76, 88, 107, 215], 95)],
       [MonkeyState([116, 44], 95), MonkeyState([343, 127, 70, 277, 43, 157], 85), MonkeyState([], 7), MonkeyState([76, 88, 107, 215], 95)],
       [MonkeyState([116, 44, 25], 95), MonkeyState([343, 127, 70, 277, 43, 157], 85), MonkeyState([], 7), MonkeyState([76, 88, 107, 215], 95)],
       [MonkeyState([116, 44, 25, 94], 95), MonkeyState([343, 127, 70, 277, 43, 157], 85), MonkeyState([], 7), MonkeyState([76, 88, 107, 215], 95)],
       [MonkeyState([116, 44, 25, 94, 16], 95), MonkeyState([343, 127, 70, 277, 43, 157], 85), MonkeyState([], 7), MonkeyState([76, 88, 107, 215], 95)],
       [MonkeyState([116, 44, 25, 94, 16, 54], 95), MonkeyState([343, 127, 70, 277, 43, 157], 85), MonkeyState([], 7), MonkeyState([76, 88, 107, 215], 95)]]);
  }

  lemma ThirdTurn19_1()
    ensures Turn(ExampleRules(), [MonkeyState([], 95), MonkeyState([343, 127, 70, 277, 43, 157], 85), MonkeyState([], 7), MonkeyState([76, 88, 107, 215], 95)], 1, Third)
      == [MonkeyState([116, 44, 25, 94, 16, 54], 95), MonkeyState([], 91), MonkeyState([], 7), MonkeyState([76, 88, 107, 215], 95)]
  {
    ThirdThrows19_1();
    ThirdDeliveries19_1();
  }

  lemma ThirdThrows19_2()
    ensures InspectAll(Rule(Square, 13, 1, 3), [], Third)
      == []
  {
  }

  lemma ThirdDeliveries19_2()
    ensures Lands([MonkeyState([116, 44, 25, 94, 16, 54], 95), MonkeyState([], 91), MonkeyState([], 7), MonkeyState([76, 88, 107, 215], 95)], [])
    ensures DeliverAll([MonkeyState([116, 44, 25, 94, 16, 54], 95), MonkeyState([], 91), MonkeyState([], 7), MonkeyState([76, 88, 107, 215], 95)], [])
      == [MonkeyState([116, 44, 25, 94, 16, 54], 95), MonkeyState([], 91), MonkeyState([], 7), MonkeyState([76, 88, 107, 215], 95)]
  {
    DeliverChain([MonkeyState([116, 44, 25, 94, 16, 54], 95), MonkeyState([], 91), MonkeyState([], 7), MonkeyState([76, 88, 107, 215], 95)], [],
      [[MonkeyState([116, 44, 25, 94, 16, 54], 95), MonkeyState([], 91), MonkeyState([], 7), MonkeyState([76, 88, 107, 215], 95)]]);
  }

  lemma ThirdTurn19_2()
    ensures Turn(ExampleRules(), [MonkeyState([116, 44, 25, 94, 16, 54], 95), MonkeyState([], 91), MonkeyState([], 7), MonkeyState([76, 88, 107, 215], 95)], 2, Third)
      == [MonkeyState([116, 44, 25, 94, 16, 54], 95), MonkeyState([], 91), MonkeyState([], 7), MonkeyState([76, 88, 107, 215], 95)]
  {
    ThirdThrows19_2();
    ThirdDeliveries19_2();
  }

  lemma ThirdThrows19_3()
    ensures InspectAll(Rule(Add(3), 17, 0, 1), [76, 88, 107, 215], Third)
      == [Throw(26, 1), Throw(30, 1), Throw(36, 1), Throw(72, 1)]
  {
  }

  lemma ThirdDeliveries19_3()
    ensures Lands([MonkeyState([116, 44, 25, 94, 16, 54], 95), MonkeyState([], 91), MonkeyState([], 7), MonkeyState([76, 88, 107, 215], 95)], [Throw(26, 1), Throw(30, 1), Throw(36, 1), Throw(72, 1)])
    ensures DeliverAll([MonkeyState([116, 44, 25, 94, 16, 54], 95), MonkeyState([], 91), MonkeyState([], 7), MonkeyState([76, 88, 107, 215], 95)], [Throw(26, 1), Throw(30, 1), Throw(36, 1), Throw(72, 1)])
      == [MonkeyState([116, 44, 25, 94, 16, 54], 95), MonkeyState([26, 30, 36, 72], 91), MonkeyState([], 7), MonkeyState([76, 88, 107, 215], 95)]
  {
    DeliverChain([MonkeyState([116, 44, 25, 94, 16, 54], 95), MonkeyState([], 91), MonkeyState([], 7), MonkeyState([76, 88, 107, 215], 95)], [Throw(26, 1), Throw(30, 1), Throw(36, 1), Throw(72, 1)],
      [[MonkeyState([116, 44, 25, 94, 16, 54], 95), MonkeyState([], 91), MonkeyState([], 7), MonkeyState([76, 88, 107, 215], 95)],
       [MonkeyState([116, 44, 25, 94, 16, 54], 95), MonkeyState([26], 91), MonkeyState([], 7), MonkeyState([76, 88, 107, 215], 95)],
       [MonkeyState([116, 44, 25, 94, 16, 54], 95), MonkeyState([26, 30], 91), MonkeyState([], 7), MonkeyState([76, 88, 107, 215], 95)],
       [MonkeyState([116, 44, 25, 94, 16, 54], 95), MonkeyState([26, 30, 36], 91), MonkeyState([], 7), MonkeyState([76, 88, 107, 215], 95)],
       [MonkeyState([116, 44, 25, 94, 16, 54], 95), MonkeyState([26, 30, 36, 72], 91), MonkeyState([], 7), MonkeyState([76, 88, 107, 215], 95)]]);
  }

  lemma ThirdTurn19_3()
    ensures Turn(ExampleRules(), [MonkeyState([116, 44, 25, 94, 16, 54], 95), MonkeyState([], 91), MonkeyState([], 7), MonkeyState([76, 88, 107, 215], 95)], 3, Third)
      == [MonkeyState([116, 44, 25, 94, 16, 54], 95), MonkeyState([26, 30, 36, 72], 91), MonkeyState([], 7), MonkeyState([], 99)]
  {
    ThirdThrows19_3();
    ThirdDeliveries19_3();
  }

  lemma ThirdRound19(ms: seq<MonkeyState>)
    requires ms == [MonkeyState([12, 14, 17, 34], 91), MonkeyState([343, 127, 70, 277, 43, 157], 85), MonkeyState([], 7), MonkeyState([], 95)]
    ensures Round(ExampleRules(), ms, Third)
      == [MonkeyState([116, 44, 25, 94, 16, 54], 95), MonkeyState([26, 30, 36, 72], 91), MonkeyState([], 7), MonkeyState([], 99)]
  {
    ThirdTurn19_0(); ThirdTurn19_1(); ThirdTurn19_2(); ThirdTurn19_3();
    RoundBy(ExampleRules(), ms, Third,
      [MonkeyState([], 95), MonkeyState([343, 127, 70, 277, 43, 157], 85), MonkeyState([], 7), MonkeyState([76, 88, 107, 215], 95)],
      [MonkeyState([116, 44, 25, 94, 16, 54], 95), MonkeyState([], 91), MonkeyState([], 7), MonkeyState([76, 88, 107, 215], 95)],
      [MonkeyState([116, 44, 25, 94, 16, 54], 95), MonkeyState([], 91), MonkeyState([], 7), MonkeyState([76, 88, 107, 215], 95)],
      [MonkeyState([116, 44, 25, 94, 16, 54], 95), MonkeyState([26, 30, 36, 72], 91), MonkeyState([], 7), MonkeyState([], 99)]);
  }

  lemma ThirdThrows20_0()
    ensures InspectAll(Rule(Mul(19), 23, 2, 3), [116, 44, 25, 94, 16, 54], Third)
      == [Throw(734, 3), Throw(278, 3), Throw(158, 3), Throw(595, 3), Throw(101, 3), Throw(342, 3)]
  {
  }

  lemma ThirdDeliveries20_0()
    ensures Lands([MonkeyState([116, 44, 25, 94, 16, 54], 95), MonkeyState([26, 30, 36, 72], 91), MonkeyState([], 7), MonkeyState([], 99)], [Throw(734, 3), Throw(278, 3), Throw(158, 3), Throw(595, 3), Throw(101, 3), Throw(342, 3)])
    ensures DeliverAll([MonkeyState([116, 44, 25, 94, 16, 54], 95), MonkeyState([26, 30, 36, 72], 91), MonkeyState([], 7), MonkeyState([], 99)], [Throw(734, 3), Throw(278, 3), Throw(158, 3), Throw(595, 3), Throw(101, 3), Throw(342, 3)])
      == [MonkeyState([116, 44, 25, 94, 16, 54], 95), MonkeyState([26, 30, 36, 72], 91), MonkeyState([], 7), MonkeyState([734, 278, 158, 595, 101, 342], 99)]
  {
    DeliverChain([MonkeyState([116, 44, 25, 94, 16, 54], 95), MonkeyState([26, 30, 36, 72], 91), MonkeyState([], 7), MonkeyState([], 99)], [Throw(734, 3), Throw(278, 3), Throw(158, 3), Throw(595, 3), Throw(101, 3), Throw(342, 3)],
      [[MonkeyState([116, 44, 25, 94, 16, 54], 95), MonkeyState([26, 30, 36, 72], 91), MonkeyState([], 7), MonkeyState([], 99)],
       [MonkeyState([116, 44, 25, 94, 16, 54], 95), MonkeyState([26, 30, 36, 72], 91), MonkeyState([], 7), MonkeyState([734], 99)],
       [MonkeyState([116, 44, 25, 94, 16, 54], 95), MonkeyState([26, 30, 36, 72], 91), MonkeyState([], 7), MonkeyState([734, 278], 99)],
       [MonkeyState([116, 44, 25, 94, 16, 54], 95), MonkeyState([26, 30, 36, 72], 91), MonkeyState([], 7), MonkeyState([734, 278, 158], 99)],
       [MonkeyState([116, 44, 25, 94, 16, 54], 95), MonkeyState([26, 30, 36, 72], 91), MonkeyState([], 7), MonkeyState([734, 278, 158, 595], 99)],
       [MonkeyState([116, 44, 25, 94, 16, 54], 95), MonkeyState([26, 30, 36, 72], 91), MonkeyState([], 7), MonkeyState([734, 278, 158, 595, 101], 99)],
       [MonkeyState([116, 44, 25, 94, 16, 54], 95), MonkeyState([26, 30, 36, 72], 91), MonkeyState([], 7), MonkeyState([734, 278, 158, 595, 101, 342], 99)]]);
  }

  lemma ThirdTurn20_0()
    ensures Turn(ExampleRules(), [MonkeyState([116, 44, 25, 94, 16, 54], 95), MonkeyState([26, 30, 36, 72], 91), MonkeyState([], 7), MonkeyState([], 99)], 0, Third)
      == [MonkeyState([], 101), MonkeyState([26, 30, 36, 72], 91), MonkeyState([], 7), MonkeyState([734, 278, 158, 595, 101, 342], 99)]
  {
    ThirdThrows20_0();
    ThirdDeliveries20_0();
  }

  lemma ThirdThrows20_1()
    ensures InspectAll(Rule(Add(6), 19, 2, 0), [26, 30, 36, 72], Third)
      == [Throw(10, 0), Throw(12, 0), Throw(14, 0), Throw(26, 0)]
  {
  }

  lemma ThirdDeliveries20_1()
    ensures Lands([MonkeyState([], 101), MonkeyState([26, 30, 36, 72], 91), MonkeyState([], 7), MonkeyState([734, 278, 158, 595, 101, 342], 99)], [Throw(10, 0), Throw(12, 0), Throw(14, 0), Throw(26, 0)])
    ensures DeliverAll([MonkeyState([], 101), MonkeyState([26, 30, 36, 72], 91), MonkeyState([], 7), MonkeyState([734, 278, 158, 595, 101, 342], 99)], [Throw(10, 0), Throw(12, 0), Throw(14, 0), Throw(26, 0)])
      == [MonkeyState([10, 12, 14, 26], 101), MonkeyState([26, 30, 36, 72], 91), MonkeyState([], 7), MonkeyState([734, 278, 158, 595, 101, 342], 99)]
  {
    DeliverChain([MonkeyState([], 101), MonkeyState([26, 30, 36, 72], 91), MonkeyState([], 7), MonkeyState([734, 278, 158, 595, 101, 342], 99)], [Throw(10, 0), Throw(12, 0), Throw(14, 0), Throw(26, 0)],
      [[MonkeyState([], 101), MonkeyState([26, 30, 36, 72], 91), MonkeyState([], 7), MonkeyState([734, 278, 158, 595, 101, 342], 99)],
       [MonkeyState([10], 101), MonkeyState([26, 30, 36, 72], 91), MonkeyState([], 7), MonkeyState([734, 278, 158, 595, 101, 342], 99)],
       [MonkeyState([10, 12], 101), MonkeyState([26, 30, 36, 72], 91), MonkeyState([], 7), MonkeyState([734, 278, 158, 595, 101, 342], 99)],
       [MonkeyState([10, 12, 14], 101), MonkeyState([26, 30, 36, 72], 91), MonkeyState([], 7), MonkeyState([734, 278, 158, 595, 101, 342], 99)],
       [MonkeyState([10, 12, 14, 26], 101), MonkeyState([26, 30, 36, 72], 91), MonkeyState([], 7), MonkeyState([734, 278, 158, 595, 101, 342], 99)]]);
  }

  lemma ThirdTurn20_1()
    ensures Turn(ExampleRules(), [MonkeyState([], 101), MonkeyState([26, 30, 36, 72], 91), MonkeyState([], 7), MonkeyState([734, 278, 158, 595, 101, 342], 99)], 1, Third)
      == [MonkeyState([10, 12, 14, 26], 101), MonkeyState([], 95), MonkeyState([], 7), MonkeyState([734, 278, 158, 595, 101, 342], 99)]
  {
    ThirdThrows20_1();
    ThirdDeliveries20_1();
  }

  lemma ThirdThrows20_2()
    ensures InspectAll(Rule(Square, 13, 1, 3), [], Third)
      == []
  {
  }

  lemma ThirdDeliveries20_2()
    ensures Lands([MonkeyState([10, 12, 14, 26], 101), MonkeyState([], 95), MonkeyState([], 7), MonkeyState([734, 278, 158, 595, 101, 342], 99)], [])
    ensures DeliverAll([MonkeyState([10, 12, 14, 26], 101), MonkeyState([], 95), MonkeyState([], 7), MonkeyState([734, 278, 158, 595, 101, 342], 99)], [])
      == [MonkeyState([10, 12, 14, 26], 101), MonkeyState([], 95), MonkeyState([], 7), MonkeyState([734, 278, 158, 595, 101, 342], 99)]
  {
    DeliverChain([MonkeyState([10, 12, 14, 26], 101), MonkeyState([], 95), MonkeyState([], 7), MonkeyState([734, 278, 158, 595, 101, 342], 99)], [],
      [[MonkeyState([10, 12, 14, 26], 101), MonkeyState([], 95), MonkeyState([], 7), MonkeyState([734, 278, 158, 595, 101, 342], 99)]]);
  }

  lemma ThirdTurn20_2()
    ensures Turn(ExampleRules(), [MonkeyState([10, 12, 14, 26], 101), MonkeyState([], 95), MonkeyState([], 7), MonkeyState([734, 278, 158, 595, 101, 342], 99)], 2, Third)
      == [MonkeyState([10, 12, 14, 26], 101), MonkeyState([], 95), MonkeyState([], 7), MonkeyState([734, 278, 158, 595, 101, 342], 99)]
  {
    ThirdThrows20_2();
    ThirdDeliveries20_2();
  }

  lemma ThirdThrows20_3()
    ensures InspectAll(Rule(Add(3), 17, 0, 1), [734, 278, 158, 595, 101, 342], Third)
      == [Throw(245, 1), Throw(93, 1), Throw(53, 1), Throw(199, 1), Throw(34, 0), Throw(115, 1)]
  {
  }

  lemma ThirdDeliveries20_3()
    ensures Lands([MonkeyState([10, 12, 14, 26], 101), MonkeyState([], 95), MonkeyState([], 7), MonkeyState([734, 278, 158, 595, 101, 342], 99)], [Throw(245, 1), Throw(93, 1), Throw(53, 1), Throw(199, 1), Throw(34, 0), Throw(115, 1)])
    ensures DeliverAll([MonkeyState([10, 12, 14, 26], 101), MonkeyState([], 95), MonkeyState([], 7), MonkeyState([734, 278, 158, 595, 101, 342], 99)], [Throw(245, 1), Throw(93, 1), Throw(53, 1), Throw(199, 1), Throw(34, 0), Throw(115, 1)])
      == [MonkeyState([10, 12, 14, 26, 34], 101), MonkeyState([245, 93, 53, 199, 115], 95), MonkeyState([], 7), MonkeyState([734, 278, 158, 595, 101, 342], 99)]
  {
    DeliverChain([MonkeyState([10, 12, 14, 26], 101), MonkeyState([], 95), MonkeyState([], 7), MonkeyState([734, 278, 158, 595, 101, 342], 99)], [Throw(245, 1), Throw(93, 1), Throw(53, 1), Throw(199, 1), Throw(34, 0), Throw(115, 1)],
      [[MonkeyState([10, 12, 14, 26], 101), MonkeyState([], 95), MonkeyState([], 7), MonkeyState([734, 278, 158, 595, 101, 342], 99)],
       [MonkeyState([10, 12, 14, 26], 101), MonkeyState([245], 95), MonkeyState([], 7), MonkeyState([734, 278, 158, 595, 101, 342], 99)],
       [MonkeyState([10, 12, 14, 26], 101), MonkeyState([245, 93], 95), MonkeyState([], 7), MonkeyState([734, 278, 158, 595, 101, 342], 99)],
       [MonkeyState([10, 12, 14, 26], 101), MonkeyState([245, 93, 53], 95), MonkeyState([], 7), MonkeyState([734, 278, 158, 595, 101, 342], 99)],
       [MonkeyState([10, 12, 14, 26], 101), MonkeyState([245, 93, 53, 199], 95), MonkeyState([], 7), MonkeyState([734, 278, 158, 595, 101, 342], 99)],
       [MonkeyState([10, 12, 14, 26, 34], 101), MonkeyState([245, 93, 53, 199], 95), MonkeyState([], 7), MonkeyState([734, 278, 158, 595, 101, 342], 99)],
       [MonkeyState([10, 12, 14, 26, 34], 101), MonkeyState([245, 93, 53, 199, 115], 95), MonkeyState([], 7), MonkeyState([734, 278, 158, 595, 101, 342], 99)]]);
  }

  lemma ThirdTurn20_3()
    ensures Turn(ExampleRules(), [MonkeyState([10, 12, 14, 26], 101), MonkeyState([], 95), MonkeyState([], 7), MonkeyState([734, 278, 158, 595, 101, 342], 99)], 3, Third)
      == [MonkeyState([10, 12, 14, 26, 34], 101), MonkeyState([245, 93, 53, 199, 115], 95), MonkeyState([], 7), MonkeyState([], 105)]
  {
    ThirdThrows20_3();
    ThirdDeliveries20_3();
  }

  lemma ThirdRound20(ms: seq<MonkeyState>)
    requires ms == [MonkeyState([116, 44, 25, 94, 16, 54], 95), MonkeyState([26, 30, 36, 72], 91), MonkeyState([], 7), MonkeyState([], 99)]
    ensures Round(ExampleRules(), ms, Third)
      == [MonkeyState([10, 12, 14, 26, 34], 101), MonkeyState([245, 93, 53, 199, 115], 95), MonkeyState([], 7), MonkeyState([], 105)]
  {
    ThirdTurn20_0(); ThirdTurn20_1(); ThirdTurn20_2(); ThirdTurn20_3();
    RoundBy(ExampleRules(), ms, Third,
      [MonkeyState([], 101), MonkeyState([26, 30, 36, 72], 91), MonkeyState([], 7), MonkeyState([734, 278, 158, 595, 101, 342], 99)],
      [MonkeyState([10, 12, 14, 26], 101), MonkeyState([], 95), MonkeyState([], 7), MonkeyState([734, 278, 158, 595, 101, 342], 99)],
      [MonkeyState([10, 12, 14, 26], 101), MonkeyState([], 95), MonkeyState([], 7), MonkeyState([734, 278, 158, 595, 101, 342], 99)],
      [MonkeyState([10, 12, 14, 26, 34], 101), MonkeyState([245, 93, 53, 199, 115], 95), MonkeyState([], 7), MonkeyState([], 105)]);
  }

  lemma ThirdAfter1(n: nat)
    requires n == 1
    ensures Rounds(ExampleRules(), ExampleStart(), Third, n)
      == [MonkeyState([20, 23, 27, 26], 2), MonkeyState([2080, 25, 167, 207, 401, 1046], 4), MonkeyState([], 3), MonkeyState([], 5)]
  {
    var before := Rounds(ExampleRules(), ExampleStart(), Third, n - 1);
    ThirdRound1(before);
  }

  lemma ThirdAfter2(n: nat)
    requires n == 2
    ensures Rounds(ExampleRules(), ExampleStart(), Third, n)
      == [MonkeyState([695, 10, 71, 135, 350], 6), MonkeyState([43, 49, 58, 55, 362], 10), MonkeyState([], 4), MonkeyState([], 10)]
  {
    var before := Rounds(ExampleRules(), ExampleStart(), Third, n - 1);
    ThirdAfter1(n - 1);
    ThirdRound2(before);
  }

  lemma ThirdAfter3(n: nat)
    requires n == 3
    ensures Rounds(ExampleRules(), ExampleStart(), Third, n)
      == [MonkeyState([16, 18, 21, 20, 122], 11), MonkeyState([1468, 22, 150, 286, 739], 15), MonkeyState([], 4), MonkeyState([], 15)]
  {
    var before := Rounds(ExampleRules(), ExampleStart(), Third, n - 1);
    ThirdAfter2(n - 1);
    ThirdRound3(before);
  }

  lemma ThirdAfter4(n: nat)
    requires n == 4
    ensures Rounds(ExampleRules(), ExampleStart(), Third, n)
      == [MonkeyState([491, 9, 52, 97, 248, 34], 16), MonkeyState([39, 45, 43, 258], 20), MonkeyState([], 4), MonkeyState([], 20)]
  {
    var before := Rounds(ExampleRules(), ExampleStart(), Third, n - 1);
    ThirdAfter3(n - 1);
    ThirdRound4(before);
  }

  lemma ThirdAfter5(n: nat)
    requires n == 5
    ensures Rounds(ExampleRules(), ExampleStart(), Third, n)
      == [MonkeyState([15, 17, 16, 88, 1037], 22), MonkeyState([20, 110, 205, 524, 72], 24), MonkeyState([], 4), MonkeyState([], 26)]
  {
    var before := Rounds(ExampleRules(), ExampleStart(), Third, n - 1);
    ThirdAfter4(n - 1);
    ThirdRound5(before);
  }

  lemma ThirdAfter6(n: nat)
    requires n == 6
    ensures Rounds(ExampleRules(), ExampleStart(), Third, n)
      == [MonkeyState([8, 70, 176, 26, 34], 27), MonkeyState([481, 32, 36, 186, 2190], 29), MonkeyState([], 5), MonkeyState([], 31)]
  {
    var before := Rounds(ExampleRules(), ExampleStart(), Third, n - 1);
    ThirdAfter5(n - 1);
    ThirdRound6(before);
  }

  lemma ThirdAfter7(n: nat)
    requires n == 7
    ensures Rounds(ExampleRules(), ExampleStart(), Third, n)
      == [MonkeyState([162, 12, 14, 64, 732, 17], 32), MonkeyState([148, 372, 55, 72], 34), MonkeyState([], 5), MonkeyState([], 36)]
  {
    var before := Rounds(ExampleRules(), ExampleStart(), Third, n - 1);
    ThirdAfter6(n - 1);
    ThirdRound7(before);
  }

  lemma ThirdAfter8(n: nat)
    requires n == 8
    ensures Rounds(ExampleRules(), ExampleStart(), Third, n)
      == [MonkeyState([51, 126, 20, 26, 136], 38), MonkeyState([343, 26, 30, 1546, 36], 38), MonkeyState([], 5), MonkeyState([], 42)]
  {
    var before := Rounds(ExampleRules(), ExampleStart(), Third, n - 1);
    ThirdAfter7(n - 1);
    ThirdRound8(before);
  }

  lemma ThirdAfter9(n: nat)
    requires n == 9
    ensures Rounds(ExampleRules(), ExampleStart(), Third, n)
      == [MonkeyState([116, 10, 12, 517, 14], 43), MonkeyState([108, 267, 43, 55, 288], 43), MonkeyState([], 5), MonkeyState([], 47)]
  {
    var before := Rounds(ExampleRules(), ExampleStart(), Third, n - 1);
    ThirdAfter8(n - 1);
    ThirdRound9(before);
  }

  lemma ThirdAfter10(n: nat)
    requires n == 10
    ensures Rounds(ExampleRules(), ExampleStart(), Third, n)
      == [MonkeyState([91, 16, 20, 98], 48), MonkeyState([481, 245, 22, 26, 1092, 30], 48), MonkeyState([], 6), MonkeyState([], 52)]
  {
    var before := Rounds(ExampleRules(), ExampleStart(), Third, n - 1);
    ThirdAfter9(n - 1);
    ThirdRound10(before);
  }

  lemma ThirdAfter11(n: nat)
    requires n == 11
    ensures Rounds(ExampleRules(), ExampleStart(), Third, n)
      == [MonkeyState([162, 83, 9, 10, 366, 12, 34], 52), MonkeyState([193, 43, 207], 54), MonkeyState([], 6), MonkeyState([], 56)]
  {
    var before := Rounds(ExampleRules(), ExampleStart(), Third, n - 1);
    ThirdAfter10(n - 1);
    ThirdRound11(before);
  }

  lemma ThirdAfter12(n: nat)
    requires n == 12
    ensures Rounds(ExampleRules(), ExampleStart(), Third, n)
      == [MonkeyState([66, 16, 71], 59), MonkeyState([343, 176, 20, 22, 773, 26, 72], 57), MonkeyState([], 6), MonkeyState([], 63)]
  {
    var before := Rounds(ExampleRules(), ExampleStart(), Third, n - 1);
    ThirdAfter11(n - 1);
    ThirdRound12(before);
  }

  lemma ThirdAfter13(n: nat)
    requires n == 13
    ensures Rounds(ExampleRules(), ExampleStart(), Third, n)
      == [MonkeyState([116, 60, 8, 9, 259, 10, 26, 34], 62), MonkeyState([140, 150], 64), MonkeyState([], 6), MonkeyState([], 66)]
  {
    var before := Rounds(ExampleRules(), ExampleStart(), Third, n - 1);
    ThirdAfter12(n - 1);
    ThirdRound13(before);
  }

  lemma ThirdAfter14(n: nat)
    requires n == 14
    ensures Rounds(ExampleRules(), ExampleStart(), Third, n)
      == [MonkeyState([48, 52, 17], 70), MonkeyState([245, 127, 20, 547, 22, 55, 72], 66), MonkeyState([], 6), MonkeyState([], 74)]
  {
    var before := Rounds(ExampleRules(), ExampleStart(), Third, n - 1);
    ThirdAfter13(n - 1);
    ThirdRound14(before);
  }

  lemma ThirdAfter15(n: nat)
    requires n == 15
    ensures Rounds(ExampleRules(), ExampleStart(), Third, n)
      == [MonkeyState([83, 44, 8, 184, 9, 20, 26, 102], 73), MonkeyState([110, 36], 73), MonkeyState([], 6), MonkeyState([], 77)]
  {
    var before := Rounds(ExampleRules(), ExampleStart(), Third, n - 1);
    ThirdAfter14(n - 1);
    ThirdRound15(before);
  }

  lemma ThirdAfter16(n: nat)
    requires n == 16
    ensures Rounds(ExampleRules(), ExampleStart(), Third, n)
      == [MonkeyState([14, 17], 81), MonkeyState([481, 176, 93, 389, 20, 43, 55, 216], 75), MonkeyState([], 7), MonkeyState([], 85)]
  {
    var before := Rounds(ExampleRules(), ExampleStart(), Third, n - 1);
    ThirdAfter15(n - 1);
    ThirdRound16(before);
  }

  lemma ThirdAfter17(n: nat)
    requires n == 17
    ensures Rounds(ExampleRules(), ExampleStart(), Third, n)
      == [MonkeyState([162, 60, 33, 131, 8, 16, 20, 74], 83), MonkeyState([30, 36], 83), MonkeyState([], 7), MonkeyState([], 87)]
  {
    var before := Rounds(ExampleRules(), ExampleStart(), Third, n - 1);
    ThirdAfter16(n - 1);
    ThirdRound17(before);
  }

  lemma ThirdAfter18(n: nat)
    requires n == 18
    ensures Rounds(ExampleRules(), ExampleStart(), Third, n)
      == [MonkeyState([12, 14, 17, 34], 91), MonkeyState([343, 127, 70, 277, 43, 157], 85), MonkeyState([], 7), MonkeyState([], 95)]
  {
    var before := Rounds(ExampleRules(), ExampleStart(), Third, n - 1);
    ThirdAfter17(n - 1);
    ThirdRound18(before);
  }

  lemma ThirdAfter19(n: nat)
    requires n == 19
    ensures Rounds(ExampleRules(), ExampleStart(), Third, n)
      == [MonkeyState([116, 44, 25, 94, 16, 54], 95), MonkeyState([26, 30, 36, 72], 91), MonkeyState([], 7), MonkeyState([], 99)]
  {
    var before := Rounds(ExampleRules(), ExampleStart(), Third, n - 1);
    ThirdAfter18(n - 1);
    ThirdRound19(before);
  }

  lemma ThirdAfter20(n: nat)
    requires n == 20
    ensures Rounds(ExampleRules(), ExampleStart(), Third, n)
      == [MonkeyState([10, 12, 14, 26, 34], 101), MonkeyState([245, 93, 53, 199, 115], 95), MonkeyState([], 7), MonkeyState([], 105)]
  {
    var before := Rounds(ExampleRules(), ExampleStart(), Third, n - 1);
    ThirdAfter19(n - 1);
    ThirdRound20(before);
  }

  lemma ReducedThrows1_0()
    ensures InspectAll(Rule(Mul(19), 23, 2, 3), [79, 98], Reduce(96577))
      == [Throw(1501, 3), Throw(1862, 3)]
  {
  }

  lemma ReducedDeliveries1_0()
    ensures Lands([MonkeyState([79, 98], 0), MonkeyState([54, 65, 75, 74], 0), MonkeyState([79, 60, 97], 0), MonkeyState([74], 0)], [Throw(1501, 3), Throw(1862, 3)])
    ensures DeliverAll([MonkeyState([79, 98], 0), MonkeyState([54, 65, 75, 74], 0), MonkeyState([79, 60, 97], 0), MonkeyState([74], 0)], [Throw(1501, 3), Throw(1862, 3)])
      == [MonkeyState([79, 98], 0), MonkeyState([54, 65, 75, 74], 0), MonkeyState([79, 60, 97], 0), MonkeyState([74, 1501, 1862], 0)]
  {
    DeliverChain([MonkeyState([79, 98], 0), MonkeyState([54, 65, 75, 74], 0), MonkeyState([79, 60, 97], 0), MonkeyState([74], 0)], [Throw(1501, 3), Throw(1862, 3)],
      [[MonkeyState([79, 98], 0), MonkeyState([54, 65, 75, 74], 0), MonkeyState([79, 60, 97], 0), MonkeyState([74], 0)],
       [MonkeyState([79, 98], 0), MonkeyState([54, 65, 75, 74], 0), MonkeyState([79, 60, 97], 0), MonkeyState([74, 1501], 0)],
       [MonkeyState([79, 98], 0), MonkeyState([54, 65, 75, 74], 0), MonkeyState([79, 60, 97], 0), MonkeyState([74, 1501, 1862], 0)]]);
  }

  lemma ReducedTurn1_0()
    ensures Turn(ExampleRules(), [MonkeyState([79, 98], 0), MonkeyState([54, 65, 75, 74], 0), MonkeyState([79, 60, 97], 0), MonkeyState([74], 0)], 0, Reduce(96577))
      == [MonkeyState([], 2), MonkeyState([54, 65, 75, 74], 0), MonkeyState([79, 60, 97], 0), MonkeyState([74, 1501, 1862], 0)]
  {
    ReducedThrows1_0();
    ReducedDeliveries1_0();
  }

  lemma ReducedThrows1_1()
    ensures InspectAll(Rule(Add(6), 19, 2, 0), [54, 65, 75, 74], Reduce(96577))
      == [Throw(60, 0), Throw(71, 0), Throw(81, 0), Throw(80, 0)]
  {
  }

  lemma ReducedDeliveries1_1()
    ensures Lands([MonkeyState([], 2), MonkeyState([54, 65, 75, 74], 0), MonkeyState([79, 60, 97], 0), MonkeyState([74, 1501, 1862], 0)], [Throw(60, 0), Throw(71, 0), Throw(81, 0), Throw(80, 0)])
    ensures DeliverAll([MonkeyState([], 2), MonkeyState([54, 65, 75, 74], 0), MonkeyState([79, 60, 97], 0), MonkeyState([74, 1501, 1862], 0)], [Throw(60, 0), Throw(71, 0), Throw(81, 0), Throw(80, 0)])
      == [MonkeyState([60, 71, 81, 80], 2), MonkeyState([54, 65, 75, 74], 0), MonkeyState([79, 60, 97], 0), MonkeyState([74, 1501, 1862], 0)]
  {
    DeliverChain([MonkeyState([], 2), MonkeyState([54, 65, 75, 74], 0), MonkeyState([79, 60, 97], 0), MonkeyState([74, 1501, 1862], 0)], [Throw(60, 0), Throw(71, 0), Throw(81, 0), Throw(80, 0)],
      [[MonkeyState([], 2), MonkeyState([54, 65, 75, 74], 0), MonkeyState([79, 60, 97], 0), MonkeyState([74, 1501, 1862], 0)],
       [MonkeyState([60], 2), MonkeyState([54, 65, 75, 74], 0), MonkeyState([79, 60, 97], 0), MonkeyState([74, 1501, 1862], 0)],
       [MonkeyState([60, 71], 2), MonkeyState([54, 65, 75, 74], 0), MonkeyState([79, 60, 97], 0), MonkeyState([74, 1501, 1862], 0)],
       [MonkeyState([60, 71, 81], 2), MonkeyState([54, 65, 75, 74], 0), MonkeyState([79, 60, 97], 0), MonkeyState([74, 1501, 1862], 0)],
       [MonkeyState([60, 71, 81, 80], 2), MonkeyState([54, 65, 75, 74], 0), MonkeyState([79, 60, 97], 0), MonkeyState([74, 1501, 1862], 0)]]);
  }

  lemma ReducedTurn1_1()
    ensures Turn(ExampleRules(), [MonkeyState([], 2), MonkeyState([54, 65, 75, 74], 0), MonkeyState([79, 60, 97], 0), MonkeyState([74, 1501, 1862], 0)], 1, Reduce(96577))
      == [MonkeyState([60, 71, 81, 80], 2), MonkeyState([], 4), MonkeyState([79, 60, 97], 0), MonkeyState([74, 1501, 1862], 0)]
  {
    ReducedThrows1_1();
    ReducedDeliveries1_1();
  }

  lemma ReducedThrows1_2()
    ensures InspectAll(Rule(Square, 13, 1, 3), [79, 60, 97], Reduce(96577))
      == [Throw(6241, 3), Throw(3600, 3), Throw(9409, 3)]
  {
  }

  lemma ReducedDeliveries1_2()
    ensures Lands([MonkeyState([60, 71, 81, 80], 2), MonkeyState([], 4), MonkeyState([79, 60, 97], 0), MonkeyState([74, 1501, 1862], 0)], [Throw(6241, 3), Throw(3600, 3), Throw(9409, 3)])
    ensures DeliverAll([MonkeyState([60, 71, 81, 80], 2), MonkeyState([], 4), MonkeyState([79, 60, 97], 0), MonkeyState([74, 1501, 1862], 0)], [Throw(6241, 3), Throw(3600, 3), Throw(9409, 3)])
      == [MonkeyState([60, 71, 81, 80], 2), MonkeyState([], 4), MonkeyState([79, 60, 97], 0), MonkeyState([74, 1501, 1862, 6241, 3600, 9409], 0)]
  {
    DeliverChain([MonkeyState([60, 71, 81, 80], 2), MonkeyState([], 4), MonkeyState([79, 60, 97], 0), MonkeyState([74, 1501, 1862], 0)], [Throw(6241, 3), Throw(3600, 3), Throw(9409, 3)],
      [[MonkeyState([60, 71, 81, 80], 2), MonkeyState([], 4), MonkeyState([79, 60, 97], 0), MonkeyState([74, 1501, 1862], 0)],
       [MonkeyState([60, 71, 81, 80], 2), MonkeyState([], 4), MonkeyState([79, 60, 97], 0), MonkeyState([74, 1501, 1862, 6241], 0)],
       [MonkeyState([60, 71, 81, 80], 2), MonkeyState([], 4), MonkeyState([79, 60, 97], 0), MonkeyState([74, 1501, 1862, 6241, 3600], 0)],
       [MonkeyState([60, 71, 81, 80], 2), MonkeyState([], 4), MonkeyState([79, 60, 97], 0), MonkeyState([74, 1501, 1862, 6241, 3600, 9409], 0)]]);
  }

  lemma ReducedTurn1_2()
    ensures Turn(ExampleRules(), [MonkeyState([60, 71, 81, 80], 2), MonkeyState([], 4), MonkeyState([79, 60, 97], 0), MonkeyState([74, 1501, 1862], 0)], 2, Reduce(96577))
      == [MonkeyState([60, 71, 81, 80], 2), MonkeyState([], 4), MonkeyState([], 3), MonkeyState([74, 1501, 1862, 6241, 3600, 9409], 0)]
  {
    ReducedThrows1_2();
    ReducedDeliveries1_2();
  }

  lemma ReducedThrows1_3()
    ensures InspectAll(Rule(Add(3), 17, 0, 1), [74, 1501, 1862, 6241, 3600, 9409], Reduce(96577))
      == [Throw(77, 1), Throw(1504, 1), Throw(1865, 1), Throw(6244, 1), Throw(3603, 1), Throw(9412, 1)]
  {
  }

  lemma ReducedDeliveries1_3()
    ensures Lands([MonkeyState([60, 71, 81, 80], 2), MonkeyState([], 4), MonkeyState([], 3), MonkeyState([74, 1501, 1862, 6241, 3600, 9409], 0)], [Throw(77, 1), Throw(1504, 1), Throw(1865, 1), Throw(6244, 1), Throw(3603, 1), Throw(9412, 1)])
    ensures DeliverAll([MonkeyState([60, 71, 81, 80], 2), MonkeyState([], 4), MonkeyState([], 3), MonkeyState([74, 1501, 1862, 6241, 3600, 9409], 0)], [Throw(77, 1), Throw(1504, 1), Throw(1865, 1), Throw(6244, 1), Throw(3603, 1), Throw(9412, 1)])
      == [MonkeyState([60, 71, 81, 80], 2), MonkeyState([77, 1504, 1865, 6244, 3603, 9412], 4), MonkeyState([], 3), MonkeyState([74, 1501, 1862, 6241, 3600, 9409], 0)]
  {
    DeliverChain([MonkeyState([60, 71, 81, 80], 2), MonkeyState([], 4), MonkeyState([], 3), MonkeyState([74, 1501, 1862, 6241, 3600, 9409], 0)], [Throw(77, 1), Throw(1504, 1), Throw(1865, 1), Throw(6244, 1), Throw(3603, 1), Throw(9412, 1)],
      [[MonkeyState([60, 71, 81, 80], 2), MonkeyState([], 4), MonkeyState([], 3), MonkeyState([74, 1501, 1862, 6241, 3600, 9409], 0)],
       [MonkeyState([60, 71, 81, 80], 2), MonkeyState([77], 4), MonkeyState([], 3), MonkeyState([74, 1501, 1862, 6241, 3600, 9409], 0)],
       [MonkeyState([60, 71, 81, 80], 2), MonkeyState([77, 1504], 4), MonkeyState([], 3), MonkeyState([74, 1501, 1862, 6241, 3600, 9409], 0)],
       [MonkeyState([60, 71, 81, 80], 2), MonkeyState([77, 1504, 1865], 4), MonkeyState([], 3), MonkeyState([74, 1501, 1862, 6241, 3600, 9409], 0)],
       [MonkeyState([60, 71, 81, 80], 2), MonkeyState([77, 1504, 1865, 6244], 4), MonkeyState([], 3), MonkeyState([74, 1501, 1862, 6241, 3600, 9409], 0)],
       [MonkeyState([60, 71, 81, 80], 2), MonkeyState([77, 1504, 1865, 6244, 3603], 4), MonkeyState([], 3), MonkeyState([74, 1501, 1862, 6241, 3600, 9409], 0)],
       [MonkeyState([60, 71, 81, 80], 2), MonkeyState([77, 1504, 1865, 6244, 3603, 9412], 4), MonkeyState([], 3), MonkeyState([74, 1501, 1862, 6241, 3600, 9409], 0)]]);
  }

  lemma ReducedTurn1_3()
    ensures Turn(ExampleRules(), [MonkeyState([60, 71, 81, 80], 2), MonkeyState([], 4), MonkeyState([], 3), MonkeyState([74, 1501, 1862, 6241, 3600, 9409], 0)], 3, Reduce(96577))
      == [MonkeyState([60, 71, 81, 80], 2), MonkeyState([77, 1504, 1865, 6244, 3603, 9412], 4), MonkeyState([], 3), MonkeyState([], 6)]
  {
    ReducedThrows1_3();
    ReducedDeliveries1_3();
  }

  lemma ReducedRound1(ms: seq<MonkeyState>)
    requires ms == [MonkeyState([79, 98], 0), MonkeyState([54, 65, 75, 74], 0), MonkeyState([79, 60, 97], 0), MonkeyState([74], 0)]
    ensures Round(ExampleRules(), ms, Reduce(96577))
      == [MonkeyState([60, 71, 81, 80], 2), MonkeyState([77, 1504, 1865, 6244, 3603, 9412], 4), MonkeyState([], 3), MonkeyState([], 6)]
  {
    ReducedTurn1_0(); ReducedTurn1_1(); ReducedTurn1_2(); ReducedTurn1_3();
    RoundBy(ExampleRules(), ms, Reduce(96577),
      [MonkeyState([], 2), MonkeyState([54, 65, 75, 74], 0), MonkeyState([79, 60, 97], 0), MonkeyState([74, 1501, 1862], 0)],
      [MonkeyState([60, 71, 81, 80], 2), MonkeyState([], 4), MonkeyState([79, 60, 97], 0), MonkeyState([74, 1501, 1862], 0)],
      [MonkeyState([60, 71, 81, 80], 2), MonkeyState([], 4), MonkeyState([], 3), MonkeyState([74, 1501, 1862, 6241, 3600, 9409], 0)],
      [MonkeyState([60, 71, 81, 80], 2), MonkeyState([77, 1504, 1865, 6244, 3603, 9412], 4), MonkeyState([], 3), MonkeyState([], 6)]);
  }

  lemma ReducedAfter1(n: nat)
    requires n == 1
    ensures Rounds(ExampleRules(), ExampleStart(), Reduce(96577), n)
      == [MonkeyState([60, 71, 81, 80], 2), MonkeyState([77, 1504, 1865, 6244, 3603, 9412], 4), MonkeyState([], 3), MonkeyState([], 6)]
  {
    var before := Rounds(ExampleRules(), ExampleStart(), Reduce(96577), n - 1);
    ReducedRound1(before);
  }

  lemma ThirdCountsAfter20(ms: seq<MonkeyState>)
    requires ms == [MonkeyState([10, 12, 14, 26, 34], 101), MonkeyState([245, 93, 53, 199, 115], 95), MonkeyState([], 7), MonkeyState([], 105)]
    ensures Counts(ms) == [101, 95, 7, 105]
  {
  }

  lemma ReducedCountsAfter1(ms: seq<MonkeyState>)
    requires ms == [MonkeyState([60, 71, 81, 80], 2), MonkeyState([77, 1504, 1865, 6244, 3603, 9412], 4), MonkeyState([], 3), MonkeyState([], 6)]
    ensures Counts(ms) == [2, 4, 3, 6]
  {
  }

  lemma ExampleFirstCounts(rounds: nat)
    requires rounds == 20
    ensures Counts(Rounds(ExampleRules(), ExampleStart(), Third, rounds)) == [101, 95, 7, 105]
  {
    ThirdAfter20(rounds);
    ThirdCountsAfter20(Rounds(ExampleRules(), ExampleStart(), Third, rounds));
  }

  /** Part 1 of the example: after 20 rounds the two busiest monkeys have
      inspected 101 and 105 items, and the answer is 10605. */
  lemma ExampleFirst(rounds: nat)
    requires rounds == 20
    ensures Business(Rounds(ExampleRules(), ExampleStart(), Third, rounds)) == Some(10605)
  {
    ExampleFirstCounts(rounds);
    BusinessOfCounts(Rounds(ExampleRules(), ExampleStart(), Third, rounds));
  }

  lemma BusinessOfCounts(ms: seq<MonkeyState>)
    requires Counts(ms) == [101, 95, 7, 105]
    ensures Business(ms) == Some(10605)
  {
    SortExampleCounts(Counts(ms));
  }

  lemma SortExampleCounts(counts: seq<int>)
    requires counts == [101, 95, 7, 105]
    ensures Sort(counts) == [7, 95, 101, 105]
  {
    SortFour(counts[0], counts[1], counts[2], counts[3]);
    assert counts == [counts[0], counts[1], counts[2], counts[3]];
  }

  /** Insertion sort on the example's four values, one element at a time. */
  lemma SortFour(a: int, b: int, c: int, d: int)
    requires c < b < a <= d
    ensures Sort([a, b, c, d]) == [c, b, a, d]
  {
    SortThree(b, c, d);
    SortStep(a, [b, c, d], [c, b, d]);
    InsertFront(a, [d], [a, d]);
    InsertPast(a, [b, d], [a, d], [b, a, d]);
    InsertPast(a, [c, b, d], [b, a, d], [c, b, a, d]);
    assert [a, b, c, d] == [a] + [b, c, d];
  }

  lemma SortThree(b: int, c: int, d: int)
    requires c < b <= d
    ensures Sort([b, c, d]) == [c, b, d]
  {
    SortTwo(c, d);
    SortStep(b, [c, d], [c, d]);
    InsertFront(b, [d], [b, d]);
    InsertPast(b, [c, d], [b, d], [c, b, d]);
    assert [b, c, d] == [b] + [c, d];
  }

  lemma SortTwo(c: int, d: int)
    requires c <= d
    ensures Sort([c, d]) == [c, d]
  {
    SortStep(d, [], []);
    assert [d] == [d] + [];
    InsertFront(d, [], [d]);
    SortStep(c, [d], [d]);
    InsertFront(c, [d], [c, d]);
    assert [c, d] == [c] + [d];
  }

  lemma InsertFront(x: int, s: seq<int>, r: seq<int>)
    requires (s == [] || x <= s[0]) && r == [x] + s
    ensures InsertSorted(x, s) == r
  {
  }

  lemma InsertPast(x: int, s: seq<int>, inserted: seq<int>, r: seq<int>)
    requires s != [] && s[0] < x && InsertSorted(x, s[1..]) == inserted && r == [s[0]] + inserted
    ensures InsertSorted(x, s) == r
  {
  }

  /** Sorting `[x] + rest` inserts `x` into the sorted rest. */
  lemma SortStep(x: int, rest: seq<int>, sortedRest: seq<int>)
    requires Sort(rest) == sortedRest
    ensures Sort([x] + rest) == InsertSorted(x, sortedRest)
  {
    assert ([x] + rest)[0] == x && ([x] + rest)[1..] == rest;
  }

  /** The first round of part 2: the modulus is the product of the tests and
      the inspection counts are 2, 4, 3 and 6, as without any reduction. */
  lemma ExampleSecondRoundOne(rounds: nat)
    requires rounds == 1
    ensures TestProduct(ExampleRules()) == 96577
    ensures Counts(Rounds(ExampleRules(), ExampleStart(), Reduce(96577), rounds)) == [2, 4, 3, 6]
    ensures Counts(Rounds(ExampleRules(), ExampleStart(), Keep, rounds)) == [2, 4, 3, 6]
  {
    ReducedCounts(rounds);
    ExampleReductionKeepsCounts(ExampleRules(), ExampleStart(), rounds);
  }

  lemma ExampleReductionKeepsCounts(rules: seq<Rule>, start: seq<MonkeyState>, rounds: nat)
    requires rules == ExampleRules() && start == ExampleStart()
    ensures TestProduct(rules) == 96577
    ensures Counts(Rounds(rules, start, Reduce(96577), rounds)) == Counts(Rounds(rules, start, Keep, rounds))
  {
    ExampleTestProduct(rules);
    TestProductDivisible(rules);
    assert Fits(rules, start);
    ReductionKeepsCounts(rules, start, 96577, rounds);
  }

  lemma ExampleTestProduct(rules: seq<Rule>)
    requires rules == ExampleRules()
    ensures TestProduct(rules) == 96577
  {
    assert rules[1..][1..][1..][1..] == [];
  }

  lemma ReducedCounts(rounds: nat)
    requires rounds == 1
    ensures Counts(Rounds(ExampleRules(), ExampleStart(), Reduce(96577), rounds)) == [2, 4, 3, 6]
  {
    ReducedAfter1(rounds);
    ReducedCountsAfter1(Rounds(ExampleRules(), ExampleStart(), Reduce(96577), rounds));
  }
}
