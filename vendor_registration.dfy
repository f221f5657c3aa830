/**
 * The four-step vendor registration form: plain text fields, five
 * editable lists of strings, weekly business hours, social links and a
 * set of accepted payment methods.
 */
module VendorRegistration {
  import opened Seqs
  import opened Wizard

  /** The form has four steps. */
  const LastStep: int := 4

  /** The text fields `handleInputChange` writes. */
  const TextFieldNames: set<string> := {
    "name", "category", "description", "city", "address", "phone", "email", "website",
    "establishedYear", "teamSize", "priceRange", "minimumOrder", "cancellationPolicy" }

  /** The list fields the form edits row by row. */
  datatype ListField = ServiceAreas | Specializations | Certifications | Services | Gallery

  const AllListFields: set<ListField> := {ServiceAreas, Specializations, Certifications, Services, Gallery}

  /** One edit of a list: type into row `index`, "Add", or the remove button of row `index`. */
  datatype ListEdit = ChangeItem(index: int, value: string) | AddItem | RemoveItem(index: int)

  /**
   * `handleArrayChange` (write at an index), `addArrayItem` (append '') and
   * `removeArrayItem` (drop the element at an index).
   */
  function EditList(s: seq<string>, e: ListEdit): seq<string> {
    match e
    case ChangeItem(index, value) => SetAt(s, index, value)
    case AddItem => s + [""]
    case RemoveItem(index) => RemoveAt(s, index)
  }

  /**
   * What each edit does to a list: a change keeps the length and touches
   * one position, "Add" appends one empty row after the existing rows, and
   * a remove in range deletes exactly that row, keeping the rest in order.
   */
  lemma ListEditEffects(s: seq<string>, e: ListEdit)
    ensures e.ChangeItem? ==> |EditList(s, e)| == |s|
    ensures e.ChangeItem? && 0 <= e.index < |s| ==> EditList(s, e)[e.index] == e.value
    ensures e.ChangeItem? ==> forall k :: 0 <= k < |s| && k != e.index ==> EditList(s, e)[k] == s[k]
    ensures e.AddItem? ==> |EditList(s, e)| == |s| + 1 && EditList(s, e)[..|s|] == s && EditList(s, e)[|s|] == ""
    ensures e.RemoveItem? && 0 <= e.index < |s| ==> |EditList(s, e)| == |s| - 1
    ensures e.RemoveItem? && 0 <= e.index < |s| ==> EditList(s, e) == s[..e.index] + s[e.index + 1..]
    ensures e.RemoveItem? && !(0 <= e.index < |s|) ==> EditList(s, e) == s
  {
    if e.AddItem? {
      assert (s + [""])[..|s|] == s;
    }
  }

  /**
   * The edits the page offers on a list: rows exist for the indices of the
   * list, and a row has a remove button only while the list has more than
   * one row.
   */
  predicate Offered(s: seq<string>, e: ListEdit) {
    match e
    case ChangeItem(index, _) => 0 <= index < |s|
    case AddItem => true
    case RemoveItem(index) => |s| > 1 && 0 <= index < |s|
  }

  /** A sequence of edits, each offered on the list as it is when it is made. */
  predicate OfferedTrace(s: seq<string>, edits: seq<ListEdit>)
    decreases |edits|
  {
    edits == [] || (Offered(s, edits[0]) && OfferedTrace(EditList(s, edits[0]), edits[1..]))
  }

  function EditAll(s: seq<string>, edits: seq<ListEdit>): seq<string>
    decreases |edits|
  {
    if edits == [] then s else EditAll(EditList(s, edits[0]), edits[1..])
  }

  /** A list starting as `['']` is never emptied through the page's controls. */
  lemma {:induction false} OfferedEditsKeepRows(s: seq<string>, edits: seq<ListEdit>)
    requires |s| >= 1 && OfferedTrace(s, edits)
    ensures |EditAll(s, edits)| >= 1
    decreases |edits|
  {
    if edits != [] {
      ListEditEffects(s, edits[0]);
      OfferedEditsKeepRows(EditList(s, edits[0]), edits[1..]);
    }
  }

  /** `handlePaymentMethodToggle`: drop the method when present, otherwise append it. */
  function TogglePaymentMethod(methods: seq<string>, m: string): seq<string> {
    Toggle(methods, m)
  }

  /**
   * Toggling flips the membership of that method only, toggling twice
   * restores every membership, and a list without duplicates keeps none.
   */
  lemma PaymentToggleRules(methods: seq<string>, m: string, other: string)
    ensures m in TogglePaymentMethod(methods, m) <==> m !in methods
    ensures other != m ==> (other in TogglePaymentMethod(methods, m) <==> other in methods)
    ensures other in TogglePaymentMethod(TogglePaymentMethod(methods, m), m) <==> other in methods
    ensures NoDuplicates(methods) ==> NoDuplicates(TogglePaymentMethod(methods, m))
  {
    ToggleFlips(methods, m);
    if other != m {
      ToggleKeepsOthers(methods, m, other);
    }
    ToggleTwice(methods, m, other);
    if NoDuplicates(methods) {
      ToggleNoDuplicates(methods, m);
    }
  }

  function ToggleAll(methods: seq<string>, toggles: seq<string>): seq<string>
    decreases |toggles|
  {
    if toggles == [] then methods else ToggleAll(TogglePaymentMethod(methods, toggles[0]), toggles[1..])
  }

  /** Starting from `[]`, any sequence of toggles leaves no method listed twice. */
  lemma {:induction false} TogglesKeepNoDuplicates(methods: seq<string>, toggles: seq<string>)
    requires NoDuplicates(methods)
    ensures NoDuplicates(ToggleAll(methods, toggles))
    decreases |toggles|
  {
    if toggles != [] {
      ToggleNoDuplicates(methods, toggles[0]);
      TogglesKeepNoDuplicates(TogglePaymentMethod(methods, toggles[0]), toggles[1..]);
    }
  }

  datatype Day = Monday | Tuesday | Wednesday | Thursday | Friday | Saturday | Sunday

  const AllDays: set<Day> := {Monday, Tuesday, Wednesday, Thursday, Friday, Saturday, Sunday}

  datatype DayHours = DayHours(open: string, close: string, isOpen: bool)

  /** The `field`/`value` pairs `handleBusinessHoursChange` is called with. */
  datatype HoursEdit = SetOpen(time: string) | SetClose(time: string) | SetIsOpen(flag: bool)

  function WithHours(h: DayHours, edit: HoursEdit): (r: DayHours)
    ensures edit.SetOpen? ==> r == h.(open := edit.time)
    ensures edit.SetClose? ==> r == h.(close := edit.time)
    ensures edit.SetIsOpen? ==> r == h.(isOpen := edit.flag)
  {
    match edit
    case SetOpen(t) => h.(open := t)
    case SetClose(t) => h.(close := t)
    case SetIsOpen(b) => h.(isOpen := b)
  }

  /** Weekdays 09:00–18:00, Saturday 10:00–16:00, Sunday closed. */
  const InitialHours: map<Day, DayHours> := map[
    Monday := DayHours("09:00", "18:00", true),
    Tuesday := DayHours("09:00", "18:00", true),
    Wednesday := DayHours("09:00", "18:00", true),
    Thursday := DayHours("09:00", "18:00", true),
    Friday := DayHours("09:00", "18:00", true),
    Saturday := DayHours("10:00", "16:00", true),
    Sunday := DayHours("10:00", "16:00", false)]

  datatype Platform = Facebook | Instagram | Website

  datatype SocialLinks = SocialLinks(facebook: string, instagram: string, website: string)

  function WithSocialLink(links: SocialLinks, platform: Platform, value: string): (r: SocialLinks)
    ensures platform == Facebook ==> r == links.(facebook := value)
    ensures platform == Instagram ==> r == links.(instagram := value)
    ensures platform == Website ==> r == links.(website := value)
  {
    match platform
    case Facebook => links.(facebook := value)
    case Instagram => links.(instagram := value)
    case Website => links.(website := value)
  }

  /** The form state: the current step and the fields of `formData`. */
  class RegistrationForm {
    var currentStep: int
    var textFields: map<string, string>
    var lists: map<ListField, seq<string>>
    var businessHours: map<Day, DayHours>
    var socialLinks: SocialLinks
    var paymentMethods: seq<string>

    /**
     * The step is in `[1, 4]`, every field is present, no list has been
     * emptied and no payment method is listed twice.
     */
    ghost predicate Valid()
      reads this
    {
      && 1 <= currentStep <= LastStep
      && textFields.Keys == TextFieldNames
      && lists.Keys == AllListFields
      && (forall f :: f in lists ==> |lists[f]| >= 1)
      && businessHours.Keys == AllDays
      && NoDuplicates(paymentMethods)
    }

    constructor ()
      ensures currentStep == 1
      ensures textFields == map f | f in TextFieldNames :: ""
      ensures lists == map f | f in AllListFields :: [""]
      ensures businessHours == InitialHours
      ensures socialLinks == SocialLinks("", "", "") && paymentMethods == []
      ensures Valid()
    {
      currentStep := 1;
      textFields := map f | f in TextFieldNames :: "";
      lists := map f | f in AllListFields :: [""];
      businessHours := InitialHours;
      socialLinks := SocialLinks("", "", "");
      paymentMethods := [];
    }

    /** `handleInputChange` on one of the text fields. */
    method HandleInputChange(field: string, value: string)
      requires Valid() && field in TextFieldNames
      modifies this
      ensures textFields == old(textFields)[field := value]
      ensures lists == old(lists) && businessHours == old(businessHours)
      ensures socialLinks == old(socialLinks) && paymentMethods == old(paymentMethods)
      ensures currentStep == old(currentStep)
      ensures Valid()
    {
      textFields := textFields[field := value];
    }

    /** One edit offered on one list: only that list changes. */
    method HandleListEdit(field: ListField, edit: ListEdit)
      requires Valid() && Offered(lists[field], edit)
      modifies this
      ensures lists == old(lists)[field := EditList(old(lists[field]), edit)]
      ensures textFields == old(textFields) && businessHours == old(businessHours)
      ensures socialLinks == old(socialLinks) && paymentMethods == old(paymentMethods)
      ensures currentStep == old(currentStep)
      ensures Valid()
    {
      ListEditEffects(lists[field], edit);
      lists := lists[field := EditList(lists[field], edit)];
    }

    /** `handlePaymentMethodToggle`. */
    method HandlePaymentMethodToggle(m: string)
      requires Valid()
      modifies this
      ensures paymentMethods == TogglePaymentMethod(old(paymentMethods), m)
      ensures textFields == old(textFields) && lists == old(lists)
      ensures businessHours == old(businessHours) && socialLinks == old(socialLinks)
      ensures currentStep == old(currentStep)
      ensures Valid()
    {
      ToggleNoDuplicates(paymentMethods, m);
      paymentMethods := TogglePaymentMethod(paymentMethods, m);
    }

    /** `handleBusinessHoursChange`: one field of one day changes. */
    method HandleBusinessHoursChange(day: Day, edit: HoursEdit)
      requires Valid()
      modifies this
      ensures businessHours == old(businessHours)[day := WithHours(old(businessHours[day]), edit)]
      ensures textFields == old(textFields) && lists == old(lists)
      ensures socialLinks == old(socialLinks) && paymentMethods == old(paymentMethods)
      ensures currentStep == old(currentStep)
      ensures Valid()
    {
      businessHours := businessHours[day := WithHours(businessHours[day], edit)];
    }

    /** `handleSocialLinksChange`: one platform's link changes. */
    method HandleSocialLinksChange(platform: Platform, value: string)
      requires Valid()
      modifies this
      ensures socialLinks == WithSocialLink(old(socialLinks), platform, value)
      ensures textFields == old(textFields) && lists == old(lists)
      ensures businessHours == old(businessHours) && paymentMethods == old(paymentMethods)
      ensures currentStep == old(currentStep)
      ensures Valid()
    {
      socialLinks := WithSocialLink(socialLinks, platform, value);
    }

    /** `nextStep`. */
    method NextStep()
      requires Valid()
      modifies this
      ensures currentStep == Next(old(currentStep), LastStep)
      ensures textFields == old(textFields) && lists == old(lists) && businessHours == old(businessHours)
      ensures socialLinks == old(socialLinks) && paymentMethods == old(paymentMethods)
      ensures Valid()
    {
      StepInRange(currentStep, LastStep, Forward);
      currentStep := Next(currentStep, LastStep);
    }

    /** `prevStep`. */
    method PrevStep()
      requires Valid()
      modifies this
      ensures currentStep == Prev(old(currentStep))
      ensures textFields == old(textFields) && lists == old(lists) && businessHours == old(businessHours)
      ensures socialLinks == old(socialLinks) && paymentMethods == old(paymentMethods)
      ensures Valid()
    {
      StepInRange(currentStep, LastStep, Back);
      currentStep := Prev(currentStep);
    }

    /**
     * The buttons on screen: "Previous" only after step 1, "Submit
     * Registration" only on step 4 and "Next" on the steps before it.
     */
    method Buttons() returns (c: Controls)
      requires Valid()
      ensures c.previous <==> currentStep > 1
      ensures c.submit <==> currentStep == LastStep
      ensures c.next <==> currentStep < LastStep
    {
      c := ControlsAt(currentStep, LastStep);
      ControlsOnReachableSteps(currentStep, LastStep);
    }
  }
}
