/** The kudos admission decision of `TextAsyncGenerate.initiate_waiting_prompt`:
    the kudos a text request requires, and whether the request is admitted,
    admitted with a lower priority or a downgrade, or rejected.
    The collaborators (the model multiplier table, `require_upfront_kudos`,
    the shared key's job-limit check) enter as inputs. */
module TextAdmission {
  import opened Exceptions
  import opened PyRound

  /** A shared key and its remaining kudos; `Unlimited` means no budget. */
  datatype SharedKey = SharedKey(id: string, kudos: int)

  const Unlimited: int := -1

  /** What `wp.require_upfront_kudos(...)` returns: whether kudos must be
      held up front, the token threshold, and whether downgrading is off. */
  datatype UpfrontPolicy = UpfrontPolicy(needsKudos: bool, tokens: int, disableDowngrade: bool)

  /** What `sharedkey.is_job_within_limits(...)` returns. */
  datatype LimitCheck = LimitCheck(isInLimit: bool, failMessage: string)

  /** Everything the decision reads. `styleKeyId` is the id of the shared key
      of the style applied to the request, if there is one. */
  datatype AdmissionRequest = AdmissionRequest(
    models: seq<string>,
    maxLength: nat,
    n: nat,
    sharedKey: Option<SharedKey>,
    allowDowngrade: bool,
    upfront: UpfrontPolicy,
    userKudos: real,
    limit: LimitCheck,
    styleKeyId: Option<string>)

  /** The outcome. An admitted job may carry the priority-downgrade flag and
      the token count of a `wp.downgrade(tokens)` call; a rejected one is
      deleted and the error is raised. */
  datatype Admission =
    | Accepted(priorityDowngrade: bool, downgradeTokens: Option<int>)
    | Rejected(error: HordeError)

  const SharedKeyInsufficientKudos: string := "SharedKeyInsufficientKudos"

  /** The running maximum of the loop over the requested models: it starts
      at 0 and is replaced only by a strictly larger multiplier. */
  function MaxMultiplier(models: seq<string>, multiplier: string -> real): real
    decreases |models|
  {
    if models == [] then 0.0
    else
      var h := MaxMultiplier(models[..|models| - 1], multiplier);
      var m := multiplier(models[|models| - 1]);
      if m > h then m else h
  }

  /** The running maximum is the least upper bound of 0 and the multipliers. */
  lemma {:induction false} MaxMultiplierIsBound(models: seq<string>, multiplier: string -> real)
    ensures MaxMultiplier(models, multiplier) >= 0.0
    ensures forall i :: 0 <= i < |models| ==> multiplier(models[i]) <= MaxMultiplier(models, multiplier)
    ensures MaxMultiplier(models, multiplier) == 0.0 ||
            exists i :: 0 <= i < |models| && multiplier(models[i]) == MaxMultiplier(models, multiplier)
    decreases |models|
  {
    if models != [] {
      var init := models[..|models| - 1];
      MaxMultiplierIsBound(init, multiplier);
      var h := MaxMultiplier(init, multiplier);
      if h != 0.0 && h >= multiplier(models[|models| - 1]) {
        var i :| 0 <= i < |init| && multiplier(init[i]) == h;
        assert init[i] == models[i];
      }
      forall i | 0 <= i < |models| - 1 ensures multiplier(models[i]) <= MaxMultiplier(models, multiplier) {
        assert init[i] == models[i];
      }
    }
  }

  /** The running maximum depends only on which models are listed: a list
      whose models all occur in another has a maximum no larger. */
  lemma MaxMultiplierOfSublist(a: seq<string>, b: seq<string>, multiplier: string -> real)
    requires forall x :: x in a ==> x in b
    ensures MaxMultiplier(a, multiplier) <= MaxMultiplier(b, multiplier)
  {
    MaxMultiplierIsBound(a, multiplier);
    MaxMultiplierIsBound(b, multiplier);
    var ma := MaxMultiplier(a, multiplier);
    if ma != 0.0 {
      var i :| 0 <= i < |a| && multiplier(a[i]) == ma;
      assert a[i] in b;
      var j :| 0 <= j < |b| && b[j] == a[i];
    }
  }

  /** The loop of kobold.py lines 121-124, written as Python runs it. */
  method HighestMultiplier(models: seq<string>, multiplier: string -> real) returns (highest: real)
    ensures highest == MaxMultiplier(models, multiplier)
    ensures highest >= 0.0
    ensures forall i :: 0 <= i < |models| ==> multiplier(models[i]) <= highest
  {
    highest := 0.0;
    for i := 0 to |models|
      invariant highest == MaxMultiplier(models[..i], multiplier)
    {
      assert models[..i + 1][..i] == models[..i];
      var modelMultiplier := multiplier(models[i]);
      if modelMultiplier > highest {
        highest := modelMultiplier;
      }
    }
    assert models[..|models|] == models;
    MaxMultiplierIsBound(models, multiplier);
  }

  /** `round(max_length * multiplier / 21, 2)`: the kudos of one unit. */
  function UnitPrice(maxLength: nat, multiplier: real): real {
    RoundHundredths(TokenShare(maxLength, multiplier))
  }

  /** `max_length * multiplier / 21` before rounding. */
  function TokenShare(maxLength: nat, multiplier: real): real {
    maxLength as real * multiplier / 21.0
  }

  lemma UnitPriceMonotone(maxLength: nat, m1: real, m2: real)
    requires m1 <= m2
    ensures UnitPrice(maxLength, m1) <= UnitPrice(maxLength, m2)
  {
    var x1, x2 := TokenShare(maxLength, m1), TokenShare(maxLength, m2);
    TokenShareMonotone(maxLength, m1, m2);
    RoundHundredthsMonotone(x1, x2);
  }

  lemma TokenShareMonotone(maxLength: nat, m1: real, m2: real)
    requires m1 <= m2
    ensures TokenShare(maxLength, m1) <= TokenShare(maxLength, m2)
  {
    ScaleMonotone(m1, m2, maxLength as real);
  }

  lemma UnitPriceNonnegative(maxLength: nat, multiplier: real)
    requires multiplier >= 0.0
    ensures UnitPrice(maxLength, multiplier) >= 0.0
  {
    var x := TokenShare(maxLength, multiplier);
    ScaleMonotone(0.0, multiplier, maxLength as real);
    RoundHundredthsOfHundredths(0);
    RoundHundredthsMonotone(0.0, x);
  }

  /** The kudos a request requires (kobold.py lines 115-125). */
  function RequiredKudos(models: seq<string>, multiplier: string -> real, maxLength: nat, n: nat): (r: real)
    ensures r >= 0.0
  {
    if |models| == 0 then 20.0 * n as real
    else
      var top := MaxMultiplier(models, multiplier);
      MaxMultiplierIsBound(models, multiplier);
      PriceNonnegative(maxLength, top, n);
      Price(maxLength, top, n)
  }

  /** kobold.py lines 115-125 as Python runs them: a flat 20 kudos per unit when no
      model is named, otherwise the price of the dearest model. */
  method ComputeRequiredKudos(models: seq<string>, multiplier: string -> real, maxLength: nat, n: nat)
    returns (required: real)
    ensures required == RequiredKudos(models, multiplier, maxLength, n)
    ensures required >= 0.0
  {
    if |models| == 0 {
      required := 20.0 * n as real;
    } else {
      var highest := HighestMultiplier(models, multiplier);
      required := UnitPrice(maxLength, highest) * n as real;
    }
  }

  /** With no model named, every unit costs a flat 20 kudos. */
  lemma RequiredKudosWithoutModels(multiplier: string -> real, maxLength: nat, n: nat)
    ensures RequiredKudos([], multiplier, maxLength, n) == 20.0 * n as real
  {
  }

  /** The kudos of n units priced by one multiplier. */
  function Price(maxLength: nat, multiplier: real, n: nat): real {
    UnitPrice(maxLength, multiplier) * n as real
  }

  /** Listing a cheap model beside an expensive one does not lower the price:
      the job costs at least what it would with any one of its models alone,
      and exactly what it would with the dearest one alone. */
  lemma RequiredKudosCoversEveryModel(models: seq<string>, multiplier: string -> real, maxLength: nat, n: nat)
    ensures forall i :: 0 <= i < |models| ==>
              RequiredKudos([models[i]], multiplier, maxLength, n) <= RequiredKudos(models, multiplier, maxLength, n)
    ensures models != [] ==>
              exists i :: 0 <= i < |models| &&
                RequiredKudos([models[i]], multiplier, maxLength, n) == RequiredKudos(models, multiplier, maxLength, n)
  {
    MaxMultiplierIsBound(models, multiplier);
    var top := MaxMultiplier(models, multiplier);
    forall i | 0 <= i < |models|
      ensures RequiredKudos([models[i]], multiplier, maxLength, n) <= RequiredKudos(models, multiplier, maxLength, n)
    {
      MaxMultiplierOfOne(models[i], multiplier);
      PriceMonotone(maxLength, MaxMultiplier([models[i]], multiplier), top, n);
    }
    if models != [] {
      if top == 0.0 {
        MaxMultiplierOfOne(models[0], multiplier);
        assert RequiredKudos([models[0]], multiplier, maxLength, n) == RequiredKudos(models, multiplier, maxLength, n);
      } else {
        var i :| 0 <= i < |models| && multiplier(models[i]) == top;
        MaxMultiplierOfOne(models[i], multiplier);
        assert RequiredKudos([models[i]], multiplier, maxLength, n) == RequiredKudos(models, multiplier, maxLength, n);
      }
    }
  }

  lemma MaxMultiplierOfOne(model: string, multiplier: string -> real)
    ensures MaxMultiplier([model], multiplier) == if multiplier(model) > 0.0 then multiplier(model) else 0.0
  {
    assert [model][..0] == [];
  }

  lemma ScaleMonotone(a: real, b: real, c: real)
    requires a <= b && c >= 0.0
    ensures a * c <= b * c
  {
  }

  lemma PriceNonnegative(maxLength: nat, m: real, n: nat)
    requires m >= 0.0
    ensures Price(maxLength, m, n) >= 0.0
  {
    UnitPriceNonnegative(maxLength, m);
    ScaleMonotone(0.0, UnitPrice(maxLength, m), n as real);
  }

  lemma PriceMonotone(maxLength: nat, m1: real, m2: real, n: nat)
    requires m1 <= m2
    ensures Price(maxLength, m1, n) <= Price(maxLength, m2, n)
  {
    UnitPriceMonotone(maxLength, m1, m2);
    ScaleMonotone(UnitPrice(maxLength, m1), UnitPrice(maxLength, m2), n as real);
  }

  /** Adding a model to a non-empty list never lowers the price, and adding
      one no dearer than the dearest already listed leaves it unchanged. */
  lemma AddedModelNeverLowersPrice(
    models: seq<string>, k: nat, m: string, multiplier: string -> real, maxLength: nat, n: nat)
    requires models != [] && k <= |models|
    ensures RequiredKudos(models[..k] + [m] + models[k..], multiplier, maxLength, n)
            >= RequiredKudos(models, multiplier, maxLength, n)
    ensures multiplier(m) <= MaxMultiplier(models, multiplier) ==>
            RequiredKudos(models[..k] + [m] + models[k..], multiplier, maxLength, n)
            == RequiredKudos(models, multiplier, maxLength, n)
  {
    var more := models[..k] + [m] + models[k..];
    InsertedKeepsModels(models, k, m);
    MaxMultiplierOfSublist(models, more, multiplier);
    PriceMonotone(maxLength, MaxMultiplier(models, multiplier), MaxMultiplier(more, multiplier), n);
    if multiplier(m) <= MaxMultiplier(models, multiplier) {
      InsertedCheaperKeepsMax(models, k, m, multiplier);
    }
  }

  lemma InsertedKeepsModels(models: seq<string>, k: nat, m: string)
    requires k <= |models|
    ensures forall x :: x in models ==> x in models[..k] + [m] + models[k..]
    ensures forall i :: 0 <= i < |models[..k] + [m] + models[k..]| ==>
              (models[..k] + [m] + models[k..])[i] == m || (models[..k] + [m] + models[k..])[i] in models
  {
    assert models == models[..k] + models[k..];
  }

  /** Inserting a model no dearer than the dearest keeps the running maximum. */
  lemma InsertedCheaperKeepsMax(models: seq<string>, k: nat, m: string, multiplier: string -> real)
    requires k <= |models|
    requires multiplier(m) <= MaxMultiplier(models, multiplier)
    ensures MaxMultiplier(models[..k] + [m] + models[k..], multiplier) == MaxMultiplier(models, multiplier)
  {
    var more := models[..k] + [m] + models[k..];
    InsertedKeepsModels(models, k, m);
    MaxMultiplierOfSublist(models, more, multiplier);
    MaxMultiplierIsBound(models, multiplier);
    MaxMultiplierIsBound(more, multiplier);
    var hmore := MaxMultiplier(more, multiplier);
    if hmore != 0.0 {
      var i :| 0 <= i < |more| && multiplier(more[i]) == hmore;
      if more[i] != m {
        var j :| 0 <= j < |models| && models[j] == more[i];
      }
    }
  }

  /** Why adding a model needs a non-empty list: naming one cheap model can
      price a job below the flat rate of naming none. One model of
      multiplier 1 at 80 tokens costs 3.81 kudos, no model 20. */
  lemma ExampleOneModelBelowFlatRate()
    ensures RequiredKudos(["A"], m => 1.0, 80, 1) < RequiredKudos([], m => 1.0, 80, 1)
  {
    MaxMultiplierOfOne("A", m => 1.0);
  }

  // The conditions the decision tests, named for the contracts.

  predicate CanDowngrade(q: AdmissionRequest) {
    q.allowDowngrade && !q.upfront.disableDowngrade
  }

  /** The shared key has a budget and the request needs more than it holds. */
  predicate SharedKeyShort(q: AdmissionRequest, required: real) {
    q.sharedKey.Some? && q.sharedKey.value.kudos != Unlimited && required > q.sharedKey.value.kudos as real
  }

  /** Kudos are needed up front and the user does not hold enough. */
  predicate UserShort(q: AdmissionRequest, required: real) {
    q.upfront.needsKudos && required > q.userKudos
  }

  /** The shared key's job limits are exceeded and the applied style does not
      carry the same shared key. */
  predicate LimitBlocks(q: AdmissionRequest) {
    q.sharedKey.Some? && !q.limit.isInLimit && q.styleKeyId != Some(q.sharedKey.value.id)
  }

  function Required(q: AdmissionRequest, multiplier: string -> real): real {
    RequiredKudos(q.models, multiplier, q.maxLength, q.n)
  }

  /** The decision of kobold.py lines 127-162, in the order the checks run. */
  function Admit(q: AdmissionRequest, multiplier: string -> real): (a: Admission)
    // shared-key budget (127-138)
    ensures a == Rejected(KudosUpfront(Required(q, multiplier), Some(SharedKeyInsufficientKudos)))
            <==> SharedKeyShort(q, Required(q, multiplier)) && !CanDowngrade(q)
    ensures q.sharedKey.Some? && q.sharedKey.value.kudos == Unlimited ==>
            a != Rejected(KudosUpfront(Required(q, multiplier), Some(SharedKeyInsufficientKudos)))
    // user balance (139-151)
    ensures a == Rejected(KudosUpfront(Required(q, multiplier), None))
            <==> !CanDowngrade(q) && !SharedKeyShort(q, Required(q, multiplier)) && UserShort(q, Required(q, multiplier))
    ensures !q.upfront.needsKudos ==> a != Rejected(KudosUpfront(Required(q, multiplier), None))
    // shared-key job limits (153-162)
    ensures a == Rejected(BadRequest(q.limit.failMessage, None))
            <==> LimitBlocks(q) &&
                 !(!CanDowngrade(q) && (SharedKeyShort(q, Required(q, multiplier)) || UserShort(q, Required(q, multiplier))))
    ensures q.sharedKey.None? ==> !(a.Rejected? && a.error.BadRequest?)
    ensures q.sharedKey.Some? && q.styleKeyId == Some(q.sharedKey.value.id) ==>
            !(a.Rejected? && a.error.BadRequest?)
    // rejections carry the exact required kudos or the key's message
    ensures a.Rejected? ==>
              a.error in {KudosUpfront(Required(q, multiplier), Some(SharedKeyInsufficientKudos)),
                          KudosUpfront(Required(q, multiplier), None),
                          BadRequest(q.limit.failMessage, None)}
    // what an admitted job carries
    ensures a.Accepted? ==> a.priorityDowngrade == SharedKeyShort(q, Required(q, multiplier))
    ensures a.Accepted? ==> (a.downgradeTokens.Some? <==> UserShort(q, Required(q, multiplier)))
    ensures a.Accepted? && a.downgradeTokens.Some? ==> a.downgradeTokens.value == q.upfront.tokens
  {
    var required := Required(q, multiplier);
    var keyStage :=
      if q.sharedKey.Some? && q.sharedKey.value.kudos != Unlimited && required > q.sharedKey.value.kudos as real then
        if q.allowDowngrade && !q.upfront.disableDowngrade then Accepted(true, None)
        else Rejected(KudosUpfront(required, Some(SharedKeyInsufficientKudos)))
      else Accepted(false, None);
    if keyStage.Rejected? then keyStage
    else
      var userStage :=
        if q.upfront.needsKudos && required > q.userKudos then
          if q.allowDowngrade && !q.upfront.disableDowngrade then Accepted(keyStage.priorityDowngrade, Some(q.upfront.tokens))
          else Rejected(KudosUpfront(required, None))
        else keyStage;
      if userStage.Rejected? then userStage
      else if q.sharedKey.Some? && !q.limit.isInLimit then
        if q.styleKeyId.Some? && q.styleKeyId.value == q.sharedKey.value.id then userStage
        else Rejected(BadRequest(q.limit.failMessage, None))
      else userStage
  }

  /** The decision as one expression over the named conditions. */
  lemma AdmitByStages(q: AdmissionRequest, multiplier: string -> real)
    ensures Admit(q, multiplier) ==
      var required := Required(q, multiplier);
      if SharedKeyShort(q, required) && !CanDowngrade(q) then
        Rejected(KudosUpfront(required, Some(SharedKeyInsufficientKudos)))
      else if UserShort(q, required) && !CanDowngrade(q) then Rejected(KudosUpfront(required, None))
      else if LimitBlocks(q) then Rejected(BadRequest(q.limit.failMessage, None))
      else Accepted(SharedKeyShort(q, required), if UserShort(q, required) then Some(q.upfront.tokens) else None)
  {
  }

  /** When kudos are not needed up front, the user's balance decides nothing. */
  lemma UserBalanceIrrelevantWithoutUpfront(q: AdmissionRequest, balance: real, multiplier: string -> real)
    requires !q.upfront.needsKudos
    ensures Admit(q.(userKudos := balance), multiplier) == Admit(q, multiplier)
  {
  }

  /** A richer user is never refused for kudos where a poorer one was
      admitted. The job-limit check may see another result for the richer
      user (`limit2`), because the poorer user's job may have been downgraded
      before the check reads its size; when the poorer user's job was not
      downgraded, both jobs are the same size and the richer user is admitted,
      with no downgrade either. */
  lemma RicherUserAdmitted(q: AdmissionRequest, balance: real, limit2: LimitCheck, multiplier: string -> real)
    requires Admit(q, multiplier).Accepted? && balance >= q.userKudos
    ensures var a := Admit(q.(userKudos := balance, limit := limit2), multiplier);
            !(a.Rejected? && a.error.KudosUpfront?)
    ensures Admit(q, multiplier).downgradeTokens.None? ==>
            Admit(q.(userKudos := balance), multiplier) == Admit(q, multiplier)
  {
  }

  /** A shared key with more kudos is never worse than one with fewer. */
  lemma LargerKeyBudgetAdmitted(q: AdmissionRequest, budget: int, multiplier: string -> real)
    requires q.sharedKey.Some? && q.sharedKey.value.kudos != Unlimited
    requires budget >= q.sharedKey.value.kudos
    requires Admit(q, multiplier).Accepted?
    ensures Admit(q.(sharedKey := Some(q.sharedKey.value.(kudos := budget))), multiplier).Accepted?
  {
  }

  /** Adding a model no dearer than the dearest listed leaves the decision
      unchanged. */
  lemma CheaperModelKeepsDecision(q: AdmissionRequest, k: nat, m: string, multiplier: string -> real)
    requires q.models != [] && k <= |q.models|
    requires multiplier(m) <= MaxMultiplier(q.models, multiplier)
    ensures Admit(q.(models := q.models[..k] + [m] + q.models[k..]), multiplier) == Admit(q, multiplier)
  {
    AddedModelNeverLowersPrice(q.models, k, m, multiplier, q.maxLength, q.n);
  }

  /** Models A (x2) and B (x5), one unit of 210 tokens: the price follows B. */
  lemma ExampleHighestMultiplierPrices()
    ensures RequiredKudos(["A", "B"], m => if m == "B" then 5.0 else 2.0, 210, 1) == 50.0
  {
    var mult := m => if m == "B" then 5.0 else 2.0;
    assert ["A", "B"][..1] == ["A"];
    assert ["A"][..0] == [];
    assert MaxMultiplier(["A", "B"], mult) == 5.0;
    RoundHundredthsOfHundredths(5000);
    assert 210.0 * 5.0 / 21.0 == 5000.0 / 100.0;
  }

  /** A shared key with 30 kudos, a request requiring 50, no downgrade: the
      job is rejected and the error carries 50. */
  lemma ExampleSharedKeyRejects(q: AdmissionRequest)
    requires q.models == ["A", "B"] && q.maxLength == 210 && q.n == 1
    requires q.sharedKey == Some(SharedKey("key", 30)) && !q.allowDowngrade
    ensures Admit(q, m => if m == "B" then 5.0 else 2.0) ==
            Rejected(KudosUpfront(50.0, Some(SharedKeyInsufficientKudos)))
  {
    ExampleHighestMultiplierPrices();
  }
}
