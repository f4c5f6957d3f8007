/**
 * The multi-step signup wizard shared by the patient and doctor signup pages: the
 * error-field router (`handleErrorField`), the step index (`activeStep`) with its
 * Continue/Finish, Back and dot-navigation actions, and the multipart payload (`onSubmit`).
 * The two pages differ only in their number of progress dots and their payload keys.
 */
module Wizard {
  import opened JsValues
  import opened Submission

  /** The form values that `watch()` returns: a string per field, a missing field `undefined`. */
  type FormValues = map<string, string>

  /** The fields the router tests, in three groups tried in this order. */
  const PersonalFields: seq<string> := ["firstName", "lastName", "email", "password", "confirmPassword"]
  const ProfileFields: seq<string> :=
    ["profilePicture", "gender", "relationshipStatus", "dateOfBirth", "allergies", "existingMedicalConditions"]
  const ContactFields: seq<string> :=
    ["emergencyContactAddress", "emergencyContactName", "emergencyContactNumber", "phoneNumber", "address"]
  const ErrorGroups: seq<seq<string>> := [PersonalFields, ProfileFields, ContactFields]

  /** The fields both pages destructure from the form values, in the order they list them. */
  const WatchedFields: seq<string> := [
    "profilePicture", "lastName", "firstName", "email", "dateOfBirth", "relationshipStatus",
    "emergencyContactName", "emergencyContactNumber", "emergencyContactAddress", "password",
    "phoneNumber", "address", "gender", "allergies", "confirmPassword", "existingMedicalConditions"
  ]

  /** `name === ""`: only the empty string counts; an `undefined` field is not blank. */
  predicate IsBlank(values: FormValues, name: string) {
    Get(values, name) == Some("")
  }

  /** Some field of the group is blank. */
  predicate AnyBlank(values: FormValues, group: seq<string>) {
    exists i | 0 <= i < |group| :: IsBlank(values, group[i])
  }

  lemma AnyBlankFive(values: FormValues, g: seq<string>)
    requires |g| == 5
    ensures AnyBlank(values, g) <==>
              IsBlank(values, g[0]) || IsBlank(values, g[1]) || IsBlank(values, g[2]) ||
              IsBlank(values, g[3]) || IsBlank(values, g[4])
  {
    if AnyBlank(values, g) {
      var i :| 0 <= i < |g| && IsBlank(values, g[i]);
      assert i == 0 || i == 1 || i == 2 || i == 3 || i == 4;
    }
  }

  lemma AnyBlankSix(values: FormValues, g: seq<string>)
    requires |g| == 6
    ensures AnyBlank(values, g) <==>
              IsBlank(values, g[0]) || IsBlank(values, g[1]) || IsBlank(values, g[2]) ||
              IsBlank(values, g[3]) || IsBlank(values, g[4]) || IsBlank(values, g[5])
  {
    if AnyBlank(values, g) {
      var i :| 0 <= i < |g| && IsBlank(values, g[i]);
      assert i == 0 || i == 1 || i == 2 || i == 3 || i == 4 || i == 5;
    }
  }

  /**
   * `handleErrorField`: the step of the first group with a blank field, or `None` when no
   * group has one (the page then leaves `activeStep` as it is).
   */
  function RouteErrorField(values: FormValues): (target: Option<nat>)
    ensures target.Some? ==> target.value < |ErrorGroups| && AnyBlank(values, ErrorGroups[target.value])
    ensures target.Some? ==> forall k | 0 <= k < target.value :: !AnyBlank(values, ErrorGroups[k])
    ensures target.None? <==> forall k | 0 <= k < |ErrorGroups| :: !AnyBlank(values, ErrorGroups[k])
  {
    AnyBlankFive(values, PersonalFields);
    AnyBlankSix(values, ProfileFields);
    AnyBlankFive(values, ContactFields);
    if IsBlank(values, "firstName") || IsBlank(values, "lastName") || IsBlank(values, "email") ||
       IsBlank(values, "password") || IsBlank(values, "confirmPassword")
    then Some(0)
    else if IsBlank(values, "profilePicture") || IsBlank(values, "gender") ||
            IsBlank(values, "relationshipStatus") || IsBlank(values, "dateOfBirth") ||
            IsBlank(values, "allergies") || IsBlank(values, "existingMedicalConditions")
    then Some(1)
    else if IsBlank(values, "emergencyContactAddress") || IsBlank(values, "emergencyContactName") ||
            IsBlank(values, "emergencyContactNumber") || IsBlank(values, "phoneNumber") ||
            IsBlank(values, "address")
    then Some(2)
    else None
  }

  /** A record whose only blank field lies in group `g` is sent to step `g`. */
  lemma SingleBlankRoutesToItsGroup(values: FormValues, g: nat, name: string)
    requires g < |ErrorGroups| && name in ErrorGroups[g]
    requires IsBlank(values, name)
    requires forall other | other in values && other != name :: values[other] != ""
    ensures RouteErrorField(values) == Some(g)
  {
    var i :| 0 <= i < |ErrorGroups[g]| && ErrorGroups[g][i] == name;
    assert AnyBlank(values, ErrorGroups[g]);
    GroupsDisjoint();
    forall k, j | 0 <= k < |ErrorGroups| && k != g && 0 <= j < |ErrorGroups[k]|
      ensures !IsBlank(values, ErrorGroups[k][j])
    {
      assert ErrorGroups[k][j] != ErrorGroups[g][i];
    }
  }

  /** No field belongs to two groups. */
  lemma GroupsDisjoint()
    ensures forall g, k, i, j | 0 <= g < k < |ErrorGroups| && 0 <= i < |ErrorGroups[g]| && 0 <= j < |ErrorGroups[k]| ::
              ErrorGroups[g][i] != ErrorGroups[k][j]
  {
  }

  /** Without any field equal to `""` (missing fields included) the router does not redirect. */
  lemma NoBlankNoRedirect(values: FormValues)
    requires forall name | name in values :: values[name] != ""
    ensures RouteErrorField(values).None?
  {
  }

  /** A field no group lists never influences the router, whatever its value. */
  lemma RouteIgnoresUngroupedField(values: FormValues, name: string, v: string)
    requires forall g | 0 <= g < |ErrorGroups| :: name !in ErrorGroups[g]
    ensures RouteErrorField(values[name := v]) == RouteErrorField(values)
  {
    var updated := values[name := v];
    forall other | other != name
      ensures IsBlank(updated, other) == IsBlank(values, other)
    {
    }
    assert name !in ErrorGroups[0] && name !in ErrorGroups[1] && name !in ErrorGroups[2];
  }

  /** The buttons a click can come from. */
  datatype Click = ContinueClick(values: FormValues) | BackClick | DotClick(index: int)

  /** The highest index `activeStep` can take: the last dot, or 2, the highest step the router sets. */
  function MaxStep(dots: nat): nat {
    if dots > 3 then dots - 1 else 2
  }

  /**
   * The primary button reads "Continue" before the last dot's step and "Finish" from there
   * on; of the steps that have a dot, only the last one shows "Finish".
   */
  function ContinueLabel(dots: nat, step: int): (caption: string)
    ensures caption == "Continue" || caption == "Finish"
    ensures caption == "Finish" <==> step >= dots - 1
    ensures 0 <= step < dots ==> (caption == "Finish" <==> step == dots - 1)
  {
    if step < dots - 1 then "Continue" else "Finish"
  }

  /**
   * The back arrow is rendered only from step 1 on: on every step from 0 up except the
   * first, and only where going back leaves a non-negative index.
   */
  function BackVisible(step: int): (visible: bool)
    ensures 0 <= step ==> (visible <==> step != 0)
    ensures visible ==> 0 <= step - 1
  {
    step >= 1
  }

  /**
   * The step index after one click, as the page's render guards and handlers decide it:
   * Continue advances before the last dot's step and runs the router from there on; Back
   * works only where the arrow is rendered; a dot exists for each index below `dots`.
   */
  function StepAfter(dots: nat, step: int, click: Click): (next: int)
    ensures click.ContinueClick? && ContinueLabel(dots, step) == "Continue" ==> next == step + 1
    ensures click.ContinueClick? && ContinueLabel(dots, step) == "Finish" ==>
              RouteErrorField(click.values) == Some(next) ||
              (RouteErrorField(click.values).None? && next == step)
    ensures click.BackClick? ==> (next == step - 1 <==> BackVisible(step)) && (next == step <==> !BackVisible(step))
    ensures click.DotClick? && 0 <= click.index < dots ==> next == click.index
    ensures click.DotClick? && !(0 <= click.index < dots) ==> next == step
  {
    match click
    case ContinueClick(values) =>
      if ContinueLabel(dots, step) == "Continue" then step + 1
      else if RouteErrorField(values).Some? then RouteErrorField(values).value
      else step
    case BackClick => if BackVisible(step) then step - 1 else step
    case DotClick(index) => if 0 <= index < dots then index else step
  }

  /**
   * The step index after a sequence of clicks, each applied to the index the previous one
   * left: the result is the last click applied to the index the earlier clicks reach.
   */
  function Run(dots: nat, step: int, clicks: seq<Click>): (final: int)
    ensures clicks != [] ==>
              final == StepAfter(dots, Run(dots, step, clicks[..|clicks| - 1]), clicks[|clicks| - 1])
    decreases |clicks|
  {
    if clicks == [] then step
    else
      var next := StepAfter(dots, step, clicks[0]);
      var n := |clicks|;
      assert n >= 2 ==> clicks[..n - 1][0] == clicks[0] && clicks[..n - 1][1..] == clicks[1..][..n - 2];
      assert n == 1 ==> clicks[..n - 1] == [] && clicks[1..] == [];
      Run(dots, next, clicks[1..])
  }

  /** One click keeps the index within `0..MaxStep(dots)`. */
  lemma StepAfterStaysInRange(dots: nat, step: int, click: Click)
    requires 1 <= dots && 0 <= step <= MaxStep(dots)
    ensures 0 <= StepAfter(dots, step, click) <= MaxStep(dots)
  {
  }

  /** Any sequence of clicks from a step in range keeps the index in range. */
  lemma {:induction false} RunStaysInRange(dots: nat, step: int, clicks: seq<Click>)
    requires 1 <= dots && 0 <= step <= MaxStep(dots)
    ensures 0 <= Run(dots, step, clicks) <= MaxStep(dots)
    decreases |clicks|
  {
    if clicks != [] {
      StepAfterStaysInRange(dots, step, clicks[0]);
      RunStaysInRange(dots, StepAfter(dots, step, clicks[0]), clicks[1..]);
    }
  }

  /** Clicking the same dot again leaves the index at that dot. */
  lemma DotClickIdempotent(dots: nat, step: int, index: int)
    requires 0 <= index < dots
    ensures Run(dots, step, [DotClick(index)]) == index
    ensures Run(dots, step, [DotClick(index), DotClick(index)]) == index
  {
    assert [DotClick(index), DotClick(index)][1..] == [DotClick(index)];
  }

  /** Continue on a "Continue" label advances by exactly one; on "Finish" it only routes. */
  lemma ContinueAdvancesOrRoutes(dots: nat, step: int, values: FormValues)
    ensures ContinueLabel(dots, step) == "Continue" <==> step < dots - 1
    ensures step < dots - 1 ==> StepAfter(dots, step, ContinueClick(values)) == step + 1
    ensures step >= dots - 1 ==>
              StepAfter(dots, step, ContinueClick(values)) ==
                (if RouteErrorField(values).Some? then RouteErrorField(values).value else step)
  {
  }

  /** One field appended to the multipart payload: its name and the value read from the form. */
  datatype Entry = Entry(name: string, value: Option<string>)

  /** `onSubmit`: one `formData.append(key, payload[key])` per key, in order. */
  function Payload(keys: seq<string>, values: FormValues): (p: seq<Entry>)
    ensures |p| == |keys|
    ensures forall i | 0 <= i < |keys| :: p[i].name == keys[i] && p[i].value == Get(values, keys[i])
    decreases |keys|
  {
    if keys == [] then [] else [Entry(keys[0], Get(values, keys[0]))] + Payload(keys[1..], values)
  }

  /** The field names a payload carries, as a set. */
  function Names(p: seq<Entry>): set<string> {
    set i | 0 <= i < |p| :: p[i].name
  }

  /** The names a list holds, as a set. */
  function Elems(names: seq<string>): set<string> {
    set i | 0 <= i < |names| :: names[i]
  }

  /** Two lists that hold each other's names hold the same set of names. */
  lemma SameElems(a: seq<string>, b: seq<string>)
    requires forall i | 0 <= i < |a| :: a[i] in b
    requires forall i | 0 <= i < |b| :: b[i] in a
    ensures Elems(a) == Elems(b)
  {
  }

  /** No field name appears twice. */
  predicate NamesDistinct(p: seq<Entry>) {
    forall i, j | 0 <= i < j < |p| :: p[i].name != p[j].name
  }

  /** A payload names exactly its keys; distinct keys give distinct names. */
  lemma PayloadNames(keys: seq<string>, values: FormValues)
    ensures Names(Payload(keys, values)) == Elems(keys)
    ensures (forall i, j | 0 <= i < j < |keys| :: keys[i] != keys[j]) ==> NamesDistinct(Payload(keys, values))
    ensures forall e | e in Payload(keys, values) :: e.value == Get(values, e.name)
  {
    var p := Payload(keys, values);
    forall name | name in Elems(keys)
      ensures name in Names(p)
    {
      var i :| 0 <= i < |keys| && keys[i] == name;
      assert p[i].name == name;
    }
  }

  /** Where the page goes after a submission settles. */
  datatype Reaction = Navigate(path: string, replace: bool) | Notify(notice: Notice)

  datatype SubmitResult = Succeeded | Failed(error: SubmitError)

  /**
   * The mutation's `onSuccess` and `onError`: success replaces the page with "/verify";
   * a failure yields the shared chain's notice, which is `Throws`, and no notification,
   * when the chain reads an unguarded property.
   */
  function SignupReaction(r: SubmitResult): (reaction: Reaction)
    ensures reaction.Navigate? <==> r.Succeeded?
    ensures reaction.Navigate? ==> reaction.path == "/verify" && reaction.replace
    ensures r.Failed? ==> reaction.notice == FailureNotice(r.error)
  {
    match r
    case Succeeded => Navigate("/verify", true)
    case Failed(e) => Notify(FailureNotice(e))
  }

  /**
   * The page component's step state. `dots` is the number of progress dots (3 for the
   * patient page, 2 for the doctor page) and `payloadKeys` the fields `onSubmit` appends.
   */
  class SignupWizard {
    const dots: nat
    const payloadKeys: seq<string>
    var activeStep: int

    ghost predicate Valid()
      reads this
    {
      1 <= dots && 0 <= activeStep <= MaxStep(dots)
    }

    /** `useState(0)`. */
    constructor (dots: nat, payloadKeys: seq<string>)
      requires 1 <= dots
      ensures Valid()
      ensures this.dots == dots && this.payloadKeys == payloadKeys && activeStep == 0
    {
      this.dots := dots;
      this.payloadKeys := payloadKeys;
      activeStep := 0;
    }

    /** `handleNext`: no bound of its own; callers guard it. */
    method HandleNext()
      modifies this
      ensures activeStep == old(activeStep) + 1
    {
      activeStep := activeStep + 1;
    }

    /** `handleBack`: no bound of its own; callers guard it. */
    method HandleBack()
      modifies this
      ensures activeStep == old(activeStep) - 1
    {
      activeStep := activeStep - 1;
    }

    /** `handleSlide`. */
    method HandleSlide(index: int)
      modifies this
      ensures activeStep == index
    {
      activeStep := index;
    }

    /** `handleErrorField`: move to the first group with a blank field, if any. */
    method HandleErrorField(values: FormValues)
      requires Valid()
      modifies this
      ensures Valid()
      ensures RouteErrorField(values).Some? ==> activeStep == RouteErrorField(values).value
      ensures RouteErrorField(values).None? ==> activeStep == old(activeStep)
    {
      var target := RouteErrorField(values);
      if target.Some? {
        HandleSlide(target.value);
      }
    }

    /**
     * The Continue/Finish button. Before the last dot's step it advances; from there on it
     * runs the router and then `handleSubmit(onSubmit)`, which sends the payload only when
     * the form's schema accepts the values.
     */
    method ContinueClicked(values: FormValues, schemaAccepts: bool) returns (submitted: Option<seq<Entry>>)
      requires Valid()
      modifies this
      ensures Valid()
      ensures activeStep == StepAfter(dots, old(activeStep), ContinueClick(values))
      ensures submitted.Some? <==> ContinueLabel(dots, old(activeStep)) == "Finish" && schemaAccepts
      ensures submitted.Some? ==> submitted.value == Payload(payloadKeys, values)
    {
      if activeStep >= dots - 1 {
        HandleErrorField(values);
        submitted := if schemaAccepts then Some(Payload(payloadKeys, values)) else None;
      } else {
        HandleNext();
        submitted := None;
      }
    }

    /** The back arrow; it is not rendered, so cannot be clicked, before step 1. */
    method BackClicked() returns (taken: bool)
      requires Valid()
      modifies this
      ensures Valid()
      ensures taken == BackVisible(old(activeStep))
      ensures activeStep == StepAfter(dots, old(activeStep), BackClick)
    {
      taken := activeStep >= 1;
      if taken {
        HandleBack();
      }
    }

    /** The progress dot at `index`; one dot is rendered per index below `dots`. */
    method DotClicked(index: int)
      requires Valid() && 0 <= index < dots
      modifies this
      ensures Valid()
      ensures activeStep == index == StepAfter(dots, old(activeStep), DotClick(index))
    {
      HandleSlide(index);
    }
  }
}
