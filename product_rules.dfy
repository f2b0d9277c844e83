/** The product rules service (`src/services/productRules.ts`): the table of
    amount rules per product and vehicle type, the lookup with its
    case-normalising keys and fallbacks, and the two generators of amount
    options (full purchase and partial payment). */
module ProductRules {
  import opened Js

  const Keke: string := "keke"
  const Car: string := "car"
  const Other: string := "other"

  const PMS: string := "PMS"
  const CNG: string := "CNG"
  const LPG: string := "LPG"

  /** The amounts a purchase may take: `min`, `min + step`, … up to `max`. */
  datatype AmountRule = AmountRule(min: int, max: int, step: int)

  predicate WellFormed(r: AmountRule) {
    r.step > 0 && r.min <= r.max && (r.max - r.min) % r.step == 0
  }

  const VehicleTypes: set<string> := {Keke, Car, Other}

  const AmountRules: map<string, map<string, AmountRule>> := map[
    PMS := map[Keke := AmountRule(5000, 10000, 1000),
               Car := AmountRule(10000, 20000, 1000),
               Other := AmountRule(5000, 20000, 1000)],
    CNG := map[Keke := AmountRule(1000, 5000, 1000),
               Car := AmountRule(5000, 15000, 1000),
               Other := AmountRule(1000, 15000, 1000)],
    LPG := map[Keke := AmountRule(3000, 8000, 1000),
               Car := AmountRule(5000, 15000, 1000),
               Other := AmountRule(3000, 15000, 1000)]
  ]

  /** The configured rules, each of the nine table entries. */
  predicate Configured(r: AmountRule) {
    exists p, v :: p in AmountRules && v in AmountRules[p] && AmountRules[p][v] == r
  }

  /** Every product of the table has a rule for every vehicle type, and every
      configured rule is well formed. */
  lemma TableShape()
    ensures AmountRules.Keys == {PMS, CNG, LPG}
    ensures forall p :: p in AmountRules ==> AmountRules[p].Keys == VehicleTypes
    ensures forall p, v :: p in AmountRules && v in AmountRules[p] ==> WellFormed(AmountRules[p][v])
  {
    forall p, v | p in AmountRules && v in AmountRules[p]
      ensures WellFormed(AmountRules[p][v])
    {
      assert p == PMS || p == CNG || p == LPG;
      assert v == Keke || v == Car || v == Other;
    }
  }

  // ---------------------------------------------------------------------
  // Property lookup on a plain object

  /** The properties every plain object inherits from `Object.prototype`. */
  const ObjectPrototypeNames: set<string> := {
    "constructor", "__proto__", "toString", "toLocaleString", "valueOf",
    "hasOwnProperty", "isPrototypeOf", "propertyIsEnumerable",
    "__defineGetter__", "__defineSetter__", "__lookupGetter__", "__lookupSetter__"
  }

  /** What reading `object[key]` gives on a plain object: its own property,
      an inherited built-in (a function or `Object.prototype` itself, both
      truthy), or `undefined`. */
  datatype Property<T> = Own(value: T) | Inherited(name: string) | Absent

  function Lookup<T>(own: map<string, T>, key: string): (r: Property<T>)
    ensures r.Own? <==> key in own
    ensures r.Own? ==> r.value == own[key]
    ensures r.Inherited? <==> key !in own && key in ObjectPrototypeNames
  {
    if key in own then Own(own[key])
    else if key in ObjectPrototypeNames then Inherited(key)
    else Absent
  }

  /** Every built-in name holds a lower-case letter, so no upper-cased string is one. */
  lemma UpperNeverPrototype(s: string)
    ensures ToUpperCase(s) !in ObjectPrototypeNames
  {
    var u := ToUpperCase(s);
    if u in ObjectPrototypeNames {
      var j := if u[0] == '_' then 2 else 0;
      assert IsLower(u[j]);
    }
  }

  /** The product key the lookup settles on: the upper-cased product when
      the table has it, CNG otherwise. */
  function ProductKey(product: string): (k: string)
    ensures k in AmountRules
    ensures ToUpperCase(product) in AmountRules ==> k == ToUpperCase(product)
    ensures ToUpperCase(product) !in AmountRules ==> k == CNG
  {
    var p := ToUpperCase(product);
    if p in AmountRules then p else CNG
  }

  /** The vehicle key the corrected lookup settles on: the lower-cased
      vehicle type when it is one of the table's, `other` otherwise. */
  function VehicleKey(vehicleType: string): (k: string)
    ensures k in VehicleTypes
    ensures ToLowerCase(vehicleType) in VehicleTypes ==> k == ToLowerCase(vehicleType)
    ensures ToLowerCase(vehicleType) !in VehicleTypes ==> k == Other
  {
    var v := ToLowerCase(vehicleType);
    if v in VehicleTypes then v else Other
  }

  /** `getAmountRule` as written: the vehicle type is read as a property of
      the product's rule object, so a built-in name such as `constructor`
      yields the inherited built-in, which is truthy and is returned in
      place of a rule. The product lookup cannot hit a built-in, since the
      product is upper-cased first. */
  function GetAmountRuleAsWritten(product: string, vehicleType: string): (r: Property<AmountRule>)
    ensures ToLowerCase(vehicleType) !in ObjectPrototypeNames ==> r == Own(GetAmountRule(product, vehicleType))
    ensures ToLowerCase(vehicleType) in ObjectPrototypeNames ==> r == Inherited(ToLowerCase(vehicleType))
  {
    UpperNeverPrototype(product);
    TableShape();
    // the product lookup is never `Inherited` (UpperNeverPrototype): it is
    // the product's own rules or, when absent, CNG's
    var productLookup := Lookup(AmountRules, ToUpperCase(product));
    var productRules := if productLookup.Own? then productLookup.value else AmountRules[CNG];
    match Lookup(productRules, ToLowerCase(vehicleType))
    case Own(rule) => Own(rule)
    case Inherited(name) => Inherited(name)
    case Absent => Lookup(productRules, Other)
  }

  /** `getAmountRule` reading own properties only: the product's rules (CNG's
      for an unknown product) and among them the vehicle type's rule (`other`
      for an unknown vehicle type). */
  function GetAmountRule(product: string, vehicleType: string): (r: AmountRule)
    ensures WellFormed(r)
  {
    TableShape();
    AmountRules[ProductKey(product)][VehicleKey(vehicleType)]
  }

  /** The lookup always lands on one of the nine configured rules: the
      normalised keys' rule when both are in the table, CNG's rules for an
      unknown product and the `other` rule for an unknown vehicle type. */
  lemma AmountRuleLookup(product: string, vehicleType: string)
    ensures Configured(GetAmountRule(product, vehicleType))
    ensures ToUpperCase(product) in AmountRules && ToLowerCase(vehicleType) in VehicleTypes ==>
              GetAmountRule(product, vehicleType) == AmountRules[ToUpperCase(product)][ToLowerCase(vehicleType)]
    ensures ToUpperCase(product) !in AmountRules ==>
              GetAmountRule(product, vehicleType) == GetAmountRule(CNG, vehicleType)
    ensures ToLowerCase(vehicleType) !in VehicleTypes ==>
              GetAmountRule(product, vehicleType) == GetAmountRule(product, Other)
  {
    TableShape();
    UpperFixed(CNG);
    LowerFixed(Other);
  }

  /** The built-in names that survive lower-casing reach the inherited
      property: `getAmountRule('PMS', 'constructor')` does not give the PMS
      `other` rule. */
  lemma PrototypeVehicleLeaks()
    ensures GetAmountRuleAsWritten("PMS", "constructor") == Inherited("constructor")
    ensures GetAmountRuleAsWritten("PMS", "__proto__") == Inherited("__proto__")
    ensures GetAmountRule("PMS", "constructor") == AmountRule(5000, 20000, 1000)
  {
    LowerFixed("constructor");
    LowerFixed("__proto__");
    UpperFixed("PMS");
  }

  /** Two strings that differ at most in the case of their letters. */
  predicate SameUpToCase(a: string, b: string) {
    |a| == |b| && forall i :: 0 <= i < |a| ==> LowerChar(a[i]) == LowerChar(b[i])
  }

  lemma UpperAgrees(a: string, b: string)
    requires SameUpToCase(a, b)
    ensures ToUpperCase(a) == ToUpperCase(b)
  {
    forall i | 0 <= i < |a|
      ensures ToUpperCase(a)[i] == ToUpperCase(b)[i]
    {
      assert UpperChar(a[i]) == UpperChar(b[i]);
    }
  }

  lemma LowerAgrees(a: string, b: string)
    requires SameUpToCase(a, b)
    ensures ToLowerCase(a) == ToLowerCase(b)
  {
    forall i | 0 <= i < |a|
      ensures ToLowerCase(a)[i] == ToLowerCase(b)[i]
    {
      assert LowerChar(a[i]) == LowerChar(b[i]);
    }
  }

  /** The lookup does not depend on the case of its arguments. */
  lemma CaseInsensitive(product: string, product': string, vehicleType: string, vehicleType': string)
    requires SameUpToCase(product, product') && SameUpToCase(vehicleType, vehicleType')
    ensures GetAmountRule(product, vehicleType) == GetAmountRule(product', vehicleType')
    ensures GetAmountRuleAsWritten(product, vehicleType) == GetAmountRuleAsWritten(product', vehicleType')
  {
    UpperAgrees(product, product');
    LowerAgrees(vehicleType, vehicleType');
  }

  // ---------------------------------------------------------------------
  // The amount ladders

  /** `from`, `from + step`, … for as long as the amount stays within `bound`. */
  function Ladder(from: int, bound: int, step: int): (r: seq<int>)
    requires step > 0
    decreases if from <= bound then bound - from + 1 else 0
  {
    if from > bound then [] else [from] + Ladder(from + step, bound, step)
  }

  lemma {:induction false} LadderElements(from: int, bound: int, step: int)
    requires step > 0
    ensures forall i :: 0 <= i < |Ladder(from, bound, step)| ==>
              Ladder(from, bound, step)[i] == from + i * step && from <= Ladder(from, bound, step)[i] <= bound
    decreases if from <= bound then bound - from + 1 else 0
  {
    if from <= bound {
      var r := Ladder(from, bound, step);
      var tail := Ladder(from + step, bound, step);
      LadderElements(from + step, bound, step);
      assert r == [from] + tail;
      forall i | 0 < i < |r|
        ensures r[i] == from + i * step
      {
        assert r[i] == tail[i - 1];
        assert tail[i - 1] == from + step + (i - 1) * step;
      }
    }
  }

  /** A multiple of `step` strictly between `-step` and `step` is zero. */
  lemma SmallMultiple(k: int, step: int)
    requires step > 0 && -step < k * step < step
    ensures k == 0
  {
  }

  lemma DivShift(x: int, step: int)
    requires x >= 0 && step > 0
    ensures (x + step) / step == x / step + 1
  {
    var q, r := x / step, x % step;
    var q', r' := (x + step) / step, (x + step) % step;
    assert x == q * step + r && 0 <= r < step;
    assert x + step == q' * step + r' && 0 <= r' < step;
    assert (q + 1 - q') * step == r' - r;
    SmallMultiple(q + 1 - q', step);
  }

  lemma {:induction false} LadderLength(from: int, bound: int, step: int)
    requires step > 0
    ensures |Ladder(from, bound, step)| == if from > bound then 0 else (bound - from) / step + 1
    decreases if from <= bound then bound - from + 1 else 0
  {
    if from <= bound {
      LadderLength(from + step, bound, step);
      var x := bound - from;
      if x >= step {
        DivShift(x - step, step);
      } else {
        assert x / step == 0 by {
          var q, r := x / step, x % step;
          assert x == q * step + r && 0 <= r < step;
          SmallMultiple(q, step);
        }
      }
    }
  }

  /** More steps reach further. */
  lemma {:induction false} MoreSteps(i: int, j: int, step: int)
    requires i < j && step > 0
    ensures i * step < j * step
    decreases j - i
  {
    assert j * step == (j - 1) * step + step;
    if i < j - 1 {
      MoreSteps(i, j - 1, step);
    }
  }

  /** The amounts of a ladder increase strictly, by exactly `step`. */
  lemma LadderIncreasing(from: int, bound: int, step: int)
    requires step > 0
    ensures forall i :: 0 <= i < |Ladder(from, bound, step)| - 1 ==>
              Ladder(from, bound, step)[i + 1] == Ladder(from, bound, step)[i] + step
    ensures forall i, j :: 0 <= i < j < |Ladder(from, bound, step)| ==>
              Ladder(from, bound, step)[i] < Ladder(from, bound, step)[j]
  {
    LadderElements(from, bound, step);
    var r := Ladder(from, bound, step);
    forall i, j | 0 <= i < j < |r|
      ensures r[i] < r[j]
    {
      assert r[i] == from + i * step && r[j] == from + j * step;
      MoreSteps(i, j, step);
    }
    forall i | 0 <= i < |r| - 1
      ensures r[i + 1] == r[i] + step
    {
      assert r[i] == from + i * step && r[i + 1] == from + (i + 1) * step;
    }
  }

  /** When `step` divides the distance, the ladder ends exactly on `bound`. */
  lemma LadderEndsOnBound(from: int, bound: int, step: int)
    requires step > 0 && from <= bound && (bound - from) % step == 0
    ensures |Ladder(from, bound, step)| > 0
    ensures Ladder(from, bound, step)[|Ladder(from, bound, step)| - 1] == bound
  {
    LadderElements(from, bound, step);
    LadderLength(from, bound, step);
    var q := (bound - from) / step;
    assert bound - from == q * step;
  }

  /** Ladders from the same start with the same step: the one with the lower
      bound is a prefix of the other. */
  lemma {:induction false} LadderPrefix(from: int, bound: int, bound': int, step: int)
    requires step > 0 && bound <= bound'
    ensures Ladder(from, bound, step) <= Ladder(from, bound', step)
    decreases if from <= bound then bound - from + 1 else 0
  {
    if from <= bound {
      LadderPrefix(from + step, bound, bound', step);
    }
  }

  /** The `for (amount = from; amount <= bound; amount += step)` loop both
      generators run, pushing each amount onto the options list. */
  method CollectSteps(from: int, bound: int, step: int) returns (options: seq<int>)
    requires step > 0
    ensures options == Ladder(from, bound, step)
  {
    options := [];
    var amount := from;
    while amount <= bound
      invariant options + Ladder(amount, bound, step) == Ladder(from, bound, step)
      decreases if amount <= bound then bound - amount + 1 else 0
    {
      assert Ladder(amount, bound, step) == [amount] + Ladder(amount + step, bound, step);
      options := options + [amount];
      amount := amount + step;
    }
  }

  /** `generateAmountOptions`: every amount the rule allows, from `min` up to `max`. */
  method GenerateAmountOptions(product: string, vehicleType: string) returns (options: seq<int>)
    ensures var rule := GetAmountRule(product, vehicleType);
            && options == Ladder(rule.min, rule.max, rule.step)
            && |options| == (rule.max - rule.min) / rule.step + 1
            && options[0] == rule.min && options[|options| - 1] == rule.max
            && (forall i :: 0 <= i < |options| ==> options[i] == rule.min + i * rule.step && options[i] <= rule.max)
            && (forall i, j :: 0 <= i < j < |options| ==> options[i] < options[j])
  {
    var rule := GetAmountRule(product, vehicleType);
    options := CollectSteps(rule.min, rule.max, rule.step);
    FullLadder(rule);
  }

  /** The ladder of a well-formed rule runs from `min` to exactly `max`. */
  lemma FullLadder(rule: AmountRule)
    requires WellFormed(rule)
    ensures var options := Ladder(rule.min, rule.max, rule.step);
            && |options| == (rule.max - rule.min) / rule.step + 1
            && options[0] == rule.min && options[|options| - 1] == rule.max
            && (forall i :: 0 <= i < |options| ==> options[i] == rule.min + i * rule.step && options[i] <= rule.max)
            && (forall i, j :: 0 <= i < j < |options| ==> options[i] < options[j])
  {
    LadderElements(rule.min, rule.max, rule.step);
    LadderLength(rule.min, rule.max, rule.step);
    LadderIncreasing(rule.min, rule.max, rule.step);
    LadderEndsOnBound(rule.min, rule.max, rule.step);
  }

  /** `generatePartialPaymentOptions`: the amounts from `min` that leave at
      least one `step` of the full amount still to pay. */
  method GeneratePartialPaymentOptions(fullAmount: int, product: string, vehicleType: string)
    returns (options: seq<int>)
    ensures var rule := GetAmountRule(product, vehicleType);
            && options == Ladder(rule.min, fullAmount - rule.step, rule.step)
            && (forall i :: 0 <= i < |options| ==>
                  rule.min <= options[i] <= fullAmount - rule.step && options[i] < fullAmount)
            && (forall i :: 0 <= i < |options| - 1 ==> options[i + 1] == options[i] + rule.step)
            && (options == [] <==> fullAmount - rule.step < rule.min)
            && (options != [] ==> options[0] == rule.min)
  {
    var rule := GetAmountRule(product, vehicleType);
    var maxPartial := fullAmount - rule.step;
    options := CollectSteps(rule.min, maxPartial, rule.step);
    LadderElements(rule.min, maxPartial, rule.step);
    LadderIncreasing(rule.min, maxPartial, rule.step);
  }

  /** `generateAmountOptions` over the as-written lookup. When the lookup
      leaks a built-in, the destructured `min`, `max` and `step` are all
      `undefined`, `undefined <= undefined` is false, and the loop never
      runs: the options are empty instead of the `other` rule's ladder. */
  method GenerateAmountOptionsAsWritten(product: string, vehicleType: string) returns (options: seq<int>)
    ensures ToLowerCase(vehicleType) in ObjectPrototypeNames ==> options == []
    ensures ToLowerCase(vehicleType) !in ObjectPrototypeNames ==>
              var rule := GetAmountRule(product, vehicleType);
              options == Ladder(rule.min, rule.max, rule.step)
  {
    match GetAmountRuleAsWritten(product, vehicleType)
    case Own(rule) =>
      options := CollectSteps(rule.min, rule.max, rule.step);
    case _ =>
      options := [];
  }

  /** `generatePartialPaymentOptions` over the as-written lookup. A leaked
      built-in makes `maxPartial` NaN and `min` undefined, so the loop never
      runs and the options are empty. */
  method GeneratePartialPaymentOptionsAsWritten(fullAmount: int, product: string, vehicleType: string)
    returns (options: seq<int>)
    ensures ToLowerCase(vehicleType) in ObjectPrototypeNames ==> options == []
    ensures ToLowerCase(vehicleType) !in ObjectPrototypeNames ==>
              var rule := GetAmountRule(product, vehicleType);
              options == Ladder(rule.min, fullAmount - rule.step, rule.step)
  {
    match GetAmountRuleAsWritten(product, vehicleType)
    case Own(rule) =>
      options := CollectSteps(rule.min, fullAmount - rule.step, rule.step);
    case _ =>
      options := [];
  }

  /** The leak reaches the generators: for `constructor` the as-written
      generators offer nothing, while the corrected lookup offers the PMS
      `other` ladder, 16 amounts from 5000 to 20000. */
  lemma PrototypeVehicleEmptiesOptions()
    ensures ToLowerCase("constructor") in ObjectPrototypeNames
    ensures var rule := GetAmountRule("PMS", "constructor");
            |Ladder(rule.min, rule.max, rule.step)| == 16
  {
    LowerFixed("constructor");
    PrototypeVehicleLeaks();
    LadderLength(5000, 20000, 1000);
  }

  /** For the same product and vehicle type, the shorter of the two option
      lists is a prefix of the longer. */
  lemma OptionsNested(fullAmount: int, product: string, vehicleType: string)
    ensures var rule := GetAmountRule(product, vehicleType);
            var full := Ladder(rule.min, rule.max, rule.step);
            var partial := Ladder(rule.min, fullAmount - rule.step, rule.step);
            partial <= full || full <= partial
  {
    var rule := GetAmountRule(product, vehicleType);
    if fullAmount - rule.step <= rule.max {
      LadderPrefix(rule.min, fullAmount - rule.step, rule.max, rule.step);
    } else {
      LadderPrefix(rule.min, rule.max, fullAmount - rule.step, rule.step);
    }
  }
}
