/**
 * The visit form of App.tsx: its initial record, the updaters its buttons
 * hand to `setFormData`, and the submit button's status machine.
 */
module Form {
  import opened Wrappers
  import opened JsText
  import opened Records
  import AppsScript

  /** The choices of the visit type drop-down. */
  const VisitTypes: seq<string> :=
    ["대심방", "구역심방", "환우심방", "심층상담", "새가족", "이사", "개업", "장례", "결혼", "기타"]

  /** The tags of the interest buttons. */
  const InterestTags: seq<string> := ["건강", "자녀", "진로", "재정", "관계", "이단", "우울", "시험", "헌신"]

  /** `initialFormData`. */
  function InitialForm(): VisitLog {
    VisitLog("", "", "", "구역심방", "", [], "", "", "", "", [], None, 3, [], "", [], "")
  }

  /** The form with the clock's date and time filled in (`initializeFormTime`). */
  function WithClock(f: VisitLog, date: string, time: string): VisitLog {
    f.(visitDate := date, visitTime := time)
  }

  /** The two free-text lists that have an add box. */
  datatype ItemList = Attendees | PrayerRequests

  function Items(f: VisitLog, field: ItemList): seq<string> {
    match field
    case Attendees => f.attendees
    case PrayerRequests => f.prayerRequests
  }

  function WithItems(f: VisitLog, field: ItemList, xs: seq<string>): VisitLog {
    match field
    case Attendees => f.(attendees := xs)
    case PrayerRequests => f.(prayerRequests := xs)
  }

  /** `xs.filter((_, k) => k !== i)`. */
  function RemoveAt<T>(xs: seq<T>, i: int): seq<T>
  {
    if xs == [] then []
    else (if i == 0 then [] else [xs[0]]) + RemoveAt(xs[1..], i - 1)
  }

  /** `xs.filter(y => y !== x)`. */
  function Without<T(==)>(xs: seq<T>, x: T): (r: seq<T>)
    ensures multiset(r) == multiset(xs)[x := 0]
  {
    if xs == [] then []
    else
      assert xs == [xs[0]] + xs[1..];
      if xs[0] == x then Without(xs[1..], x)
      else [xs[0]] + Without(xs[1..], x)
  }

  /** Every value occurs at most once. */
  ghost predicate NoDup(xs: seq<string>) {
    forall y :: multiset(xs)[y] <= 1
  }

  /** `handleAddListItem`: a blank entry is ignored, any other is appended trimmed. */
  function AddListItem(f: VisitLog, field: ItemList, value: string): VisitLog {
    if Trim(value) == "" then f
    else WithItems(f, field, Items(f, field) + [Trim(value)])
  }

  /** `handleRemoveListItem`. */
  function RemoveListItem(f: VisitLog, field: ItemList, index: int): VisitLog {
    WithItems(f, field, RemoveAt(Items(f, field), index))
  }

  /** `handleToggleInterest`. */
  function ToggleInterest(f: VisitLog, interest: string): VisitLog {
    if interest in f.interests then f.(interests := Without(f.interests, interest))
    else f.(interests := f.interests + [interest])
  }

  /** `handleAddTodo`: a blank entry is ignored, any other becomes an open to-do. */
  function AddTodo(f: VisitLog, text: string): VisitLog {
    if Trim(text) == "" then f
    else f.(todoItems := f.todoItems + [TodoItem(Trim(text), false)])
  }

  /** The check box of to-do `i`, which is only shown for an existing to-do. */
  function ToggleTodo(f: VisitLog, i: int): VisitLog
    requires 0 <= i < |f.todoItems|
  {
    f.(todoItems := f.todoItems[i := f.todoItems[i].(completed := !f.todoItems[i].completed)])
  }

  /** The remove mark of to-do `i`. */
  function RemoveTodo(f: VisitLog, i: int): VisitLog {
    f.(todoItems := RemoveAt(f.todoItems, i))
  }

  /** Star button `stars`; the buttons are numbered 1 to 5. */
  function RateFaith(f: VisitLog, stars: int): VisitLog
    requires 1 <= stars <= 5
  {
    f.(faithLevel := stars)
  }

  /** A list entry as the add boxes leave it: non-empty, no surrounding whitespace. */
  predicate Entered(s: string) {
    s != "" && Trim(s) == s
  }

  /**
   * What the form's own controls keep true of the record: a rating the
   * stars can show, interests drawn from the tags once each, and entered
   * list items and to-do texts.
   */
  ghost predicate Tidy(f: VisitLog) {
    && 1 <= f.faithLevel <= 5
    && NoDup(f.interests)
    && (forall x <- f.interests :: x in InterestTags)
    && (forall x <- f.attendees :: Entered(x))
    && (forall x <- f.prayerRequests :: Entered(x))
    && (forall t <- f.todoItems :: Entered(t.text))
  }

  /** The fresh and the reset form: rated 3, a district visit, every list empty, no name yet. */
  lemma InitialIsTidy(date: string, time: string)
    ensures var f := WithClock(InitialForm(), date, time);
      && Tidy(f) && f.faithLevel == 3 && f.visitType in VisitTypes
      && f.attendees == f.prayerRequests == f.interests == [] && f.todoItems == []
      && f.visiteeName == "" && f.visitDate == date && f.visitTime == time
  {
  }

  /**
   * Adding a blank or whitespace-only value leaves the form as it was;
   * adding any other value appends its trimmed form, an entered item, to
   * that list and changes nothing else.
   */
  lemma AddListItemLaw(f: VisitLog, field: ItemList, value: string)
    ensures IsBlank(value) ==> AddListItem(f, field, value) == f
    ensures !IsBlank(value) ==>
      var g := AddListItem(f, field, value);
      && Items(g, field) == Items(f, field) + [Trim(value)]
      && Entered(Trim(value))
      && WithItems(g, field, Items(f, field)) == f
  {
    TrimEmptyIffBlank(value);
    TrimIdempotent(value);
  }

  /** A new to-do is the trimmed text, not yet done, after the earlier ones; a blank one is ignored. */
  lemma AddTodoLaw(f: VisitLog, text: string)
    ensures IsBlank(text) ==> AddTodo(f, text) == f
    ensures !IsBlank(text) ==>
      var g := AddTodo(f, text);
      && g.todoItems == f.todoItems + [TodoItem(Trim(text), false)]
      && Entered(Trim(text))
      && g.(todoItems := f.todoItems) == f
  {
    TrimEmptyIffBlank(text);
    TrimIdempotent(text);
  }

  /** An index outside the list removes nothing. */
  lemma {:induction false} RemoveAtOutside<T>(xs: seq<T>, i: int)
    requires !(0 <= i < |xs|)
    ensures RemoveAt(xs, i) == xs
  {
    if xs != [] {
      RemoveAtOutside(xs[1..], i - 1);
      assert [xs[0]] + xs[1..] == xs;
    }
  }

  /** Removing index `i` deletes exactly that element; any other index removes nothing. */
  lemma {:induction false} RemoveAtLaw<T>(xs: seq<T>, i: int)
    ensures 0 <= i < |xs| ==> RemoveAt(xs, i) == xs[..i] + xs[i + 1..]
    ensures !(0 <= i < |xs|) ==> RemoveAt(xs, i) == xs
  {
    if !(0 <= i < |xs|) {
      RemoveAtOutside(xs, i);
    } else if i == 0 {
      RemoveAtOutside(xs[1..], -1);
      assert RemoveAt(xs, i) == [] + xs[1..];
      assert xs[..0] + xs[1..] == xs[1..];
    } else {
      var tail := xs[1..];
      RemoveAtLaw(tail, i - 1);
      calc {
        RemoveAt(xs, i);
        [xs[0]] + RemoveAt(tail, i - 1);
        [xs[0]] + (tail[..i - 1] + tail[i..]);
        ([xs[0]] + tail[..i - 1]) + tail[i..];
        { assert [xs[0]] + tail[..i - 1] == xs[..i]; assert tail[i..] == xs[i + 1..]; }
        xs[..i] + xs[i + 1..];
      }
    }
  }

  /** Removing an attendee, a prayer request or a to-do touches only that list. */
  lemma RemoveTouchesOneList(f: VisitLog, field: ItemList, i: int)
    ensures 0 <= i < |Items(f, field)| ==>
      Items(RemoveListItem(f, field, i), field) == Items(f, field)[..i] + Items(f, field)[i + 1..]
    ensures WithItems(RemoveListItem(f, field, i), field, Items(f, field)) == f
    ensures 0 <= i < |f.todoItems| ==>
      RemoveTodo(f, i).todoItems == f.todoItems[..i] + f.todoItems[i + 1..]
    ensures RemoveTodo(f, i).(todoItems := f.todoItems) == f
  {
    RemoveAtLaw(Items(f, field), i);
    RemoveAtLaw(f.todoItems, i);
  }

  /** Toggling an interest flips its membership, keeps every other one's, and changes nothing else. */
  lemma ToggleMembership(f: VisitLog, x: string, y: string)
    ensures x in ToggleInterest(f, x).interests <==> x !in f.interests
    ensures y != x ==> (y in ToggleInterest(f, x).interests <==> y in f.interests)
    ensures ToggleInterest(f, x).(interests := f.interests) == f
  {
    var g := ToggleInterest(f, x);
    assert multiset(g.interests)[x] == 0 <==> x !in g.interests;
    assert multiset(g.interests)[y] == 0 <==> y !in g.interests;
  }

  /** A list without duplicates stays so under toggling. */
  lemma ToggleKeepsNoDup(f: VisitLog, x: string)
    requires NoDup(f.interests)
    ensures NoDup(ToggleInterest(f, x).interests)
  {
    if x !in f.interests {
      assert multiset(f.interests)[x] == 0;
      assert multiset(f.interests + [x]) == multiset(f.interests) + multiset{x};
    }
  }

  lemma {:induction false} WithoutAbsent<T>(xs: seq<T>, x: T)
    requires x !in xs
    ensures Without(xs, x) == xs
  {
    if xs != [] {
      WithoutAbsent(xs[1..], x);
      assert [xs[0]] + xs[1..] == xs;
    }
  }

  /** Filtering a one-element list keeps that element exactly when it is not the value removed. */
  lemma WithoutSingle<T>(y: T, x: T)
    ensures Without([y], x) == if y == x then [] else [y]
  {
    assert [y][1..] == [];
  }

  /**
   * Filtering distributes over concatenation, so with WithoutSingle it
   * fixes the result element by element: the kept elements stay in order.
   */
  lemma {:induction false} WithoutConcat<T>(a: seq<T>, b: seq<T>, x: T)
    ensures Without(a + b, x) == Without(a, x) + Without(b, x)
  {
    if a == [] {
      assert a + b == b;
    } else {
      assert (a + b)[0] == a[0];
      assert (a + b)[1..] == a[1..] + b;
      WithoutConcat(a[1..], b, x);
    }
  }

  lemma {:induction false} WithoutAppended<T>(xs: seq<T>, x: T)
    ensures Without(xs + [x], x) == Without(xs, x)
  {
    if xs == [] {
      assert Without([x], x) == Without([x][1..], x);
    } else {
      assert (xs + [x])[1..] == xs[1..] + [x];
      WithoutAppended(xs[1..], x);
    }
  }

  /**
   * Toggling twice gives the same interests back: exactly, when the tag was
   * absent; when it was present, the same duplicate-free set of interests
   * with the tag moved to the end.
   */
  lemma ToggleTwice(f: VisitLog, x: string)
    requires NoDup(f.interests)
    ensures x !in f.interests ==> ToggleInterest(ToggleInterest(f, x), x) == f
    ensures x in f.interests ==>
      && ToggleInterest(ToggleInterest(f, x), x).interests == Without(f.interests, x) + [x]
      && multiset(ToggleInterest(ToggleInterest(f, x), x).interests) == multiset(f.interests)
  {
    var g := ToggleInterest(f, x);
    if x !in f.interests {
      WithoutAppended(f.interests, x);
      WithoutAbsent(f.interests, x);
    } else {
      assert multiset(g.interests)[x] == 0;
      assert multiset(f.interests)[x] == 1;
      assert multiset(g.interests + [x]) == multiset(g.interests) + multiset{x};
    }
  }

  /** Ticking to-do `i` flips that one flag; its text, the other to-dos and the rest of the form stay. */
  lemma ToggleTodoFlipsOne(f: VisitLog, i: int)
    requires 0 <= i < |f.todoItems|
    ensures var g := ToggleTodo(f, i);
      && |g.todoItems| == |f.todoItems|
      && g.todoItems[i].completed == !f.todoItems[i].completed
      && g.todoItems[i].text == f.todoItems[i].text
      && (forall j :: 0 <= j < |f.todoItems| && j != i ==> g.todoItems[j] == f.todoItems[j])
      && g.(todoItems := f.todoItems) == f
      && ToggleTodo(g, i) == f
  {
  }

  lemma RemoveAtKeeps<T>(xs: seq<T>, i: int, P: T -> bool)
    requires forall x <- xs :: P(x)
    ensures forall x <- RemoveAt(xs, i) :: P(x)
  {
    RemoveAtLaw(xs, i);
    if 0 <= i < |xs| {
      var r := RemoveAt(xs, i);
      forall k | 0 <= k < |r| ensures P(r[k]) {
        if k < i {
          assert r[k] == xs[k];
        } else {
          assert r[k] == xs[k + 1];
        }
      }
    }
  }

  /** Appending a value that has a property to values that have it gives values that have it. */
  lemma AppendKeeps<T>(xs: seq<T>, t: T, P: T -> bool)
    requires forall x <- xs :: P(x)
    requires P(t)
    ensures forall x <- xs + [t] :: P(x)
  {
    forall x <- xs + [t] ensures P(x) {
      if x != t {
        assert x in xs;
      }
    }
  }

  /** Adding an item keeps the form tidy. */
  lemma AddItemKeepsTidy(f: VisitLog, field: ItemList, value: string)
    requires Tidy(f)
    ensures Tidy(AddListItem(f, field, value))
  {
    var t := Trim(value);
    if t != "" {
      TrimIdempotent(value);
      AppendKeeps(Items(f, field), t, Entered);
      match field {
        case Attendees =>
        case PrayerRequests =>
      }
    }
  }

  /** Adding a to-do keeps the form tidy. */
  lemma AddTodoKeepsTidy(f: VisitLog, text: string)
    requires Tidy(f)
    ensures Tidy(AddTodo(f, text))
  {
    var t := Trim(text);
    if t != "" {
      TrimIdempotent(text);
      AppendKeeps(f.todoItems, TodoItem(t, false), (x: TodoItem) => Entered(x.text));
    }
  }

  /** Removing an item or a to-do keeps the form tidy. */
  lemma RemoveKeepsTidy(f: VisitLog, field: ItemList, i: int)
    requires Tidy(f)
    ensures Tidy(RemoveListItem(f, field, i))
    ensures Tidy(RemoveTodo(f, i))
  {
    RemoveAtKeeps(Items(f, field), i, Entered);
    RemoveAtKeeps(f.todoItems, i, (t: TodoItem) => Entered(t.text));
  }

  /** Toggling a tag's button keeps the form tidy. */
  lemma ToggleInterestKeepsTidy(f: VisitLog, tag: string)
    requires Tidy(f) && tag in InterestTags
    ensures Tidy(ToggleInterest(f, tag))
  {
    ToggleKeepsNoDup(f, tag);
    var g := ToggleInterest(f, tag);
    forall x <- g.interests ensures x in InterestTags {
      if x != tag {
        ToggleMembership(f, tag, x);
      }
    }
  }

  /** Ticking a to-do or pressing a star keeps the form tidy. */
  lemma TickAndRateKeepTidy(f: VisitLog, i: int, stars: int)
    requires Tidy(f)
    ensures 0 <= i < |f.todoItems| ==> Tidy(ToggleTodo(f, i))
    ensures 1 <= stars <= 5 ==> Tidy(RateFaith(f, stars))
  {
    if 0 <= i < |f.todoItems| {
      var h := ToggleTodo(f, i);
      forall t <- h.todoItems ensures Entered(t.text) {
        var j :| 0 <= j < |h.todoItems| && h.todoItems[j] == t;
        assert t.text == f.todoItems[j].text;
        assert f.todoItems[j] in f.todoItems;
      }
    }
  }

  /** No interest tag contains the sheet's list separator. */
  lemma TagsHaveNoComma()
    ensures forall x <- InterestTags :: !HasInfix(x, AppsScript.Comma)
  {
    forall x <- InterestTags ensures !HasInfix(x, AppsScript.Comma) {
      assert |x| == 2 && x != AppsScript.Comma;
      assert x[..2] == x;
      assert !HasInfix(x[1..], AppsScript.Comma);
    }
  }

  /** Entered items free of the separator are read back from the sheet as they were. */
  lemma EnteredItemsSurvive(xs: seq<string>, sep: string)
    requires forall x <- xs :: Entered(x) && !HasInfix(x, sep)
    ensures AppsScript.ItemsSurvive(xs, sep)
  {
    if |xs| > 0 {
      assert xs[0] in xs;
    }
  }

  /** Interests drawn from the tags are read back from the sheet as they were. */
  lemma TagsSurvive(xs: seq<string>)
    requires forall x <- xs :: x in InterestTags
    ensures AppsScript.ItemsSurvive(xs, AppsScript.Comma)
  {
    TagsHaveNoComma();
    if |xs| > 0 {
      assert xs[0] in InterestTags;
    }
  }

  /**
   * A tidy form whose attendees hold no ", " and whose prayer requests and
   * to-dos hold no line break is read back from the sheet exactly as saved.
   */
  lemma TidyFormRoundTrips(f: VisitLog, now: string)
    requires Tidy(f)
    requires forall x <- f.attendees :: !HasInfix(x, AppsScript.Comma)
    requires forall x <- f.prayerRequests :: !HasInfix(x, AppsScript.NewLine)
    requires forall t <- f.todoItems :: !HasInfix(t.text, AppsScript.NewLine)
    ensures AppsScript.DecodeRow(AppsScript.EncodeRow(AppsScript.Payload(f, {}), now))
      == Ok(AppsScript.AsListed(f))
  {
    EnteredItemsSurvive(f.attendees, AppsScript.Comma);
    EnteredItemsSurvive(f.prayerRequests, AppsScript.NewLine);
    TagsSurvive(f.interests);
    assert AppsScript.SurvivesSheet(f);
    AppsScript.RoundTrip(f, now);
  }

  /** The form screen's state: the record being written and the save status. */
  class FormScreen {
    var form: VisitLog
    var status: SubmissionStatus

    /** Opening the write tab: the initial form with today's date and the current time. */
    constructor (date: string, time: string)
      ensures form == WithClock(InitialForm(), date, time) && status == Idle
    {
      form := WithClock(InitialForm(), date, time);
      status := Idle;
    }

    /**
     * `handleSubmit` up to the save call. While a save is pending the
     * button is disabled; without a name nothing is sent; otherwise the
     * form is sent and the status becomes Loading.
     */
    method Submit() returns (sent: Option<VisitLog>)
      modifies this
      ensures form == old(form)
      ensures old(status) == Loading || old(form).visiteeName == "" ==> sent == None && status == old(status)
      ensures old(status) != Loading && old(form).visiteeName != "" ==> sent == Some(form) && status == Loading
    {
      if status == Loading || form.visiteeName == "" {
        return None;
      }
      status := Loading;
      sent := Some(form);
    }

    /** The save settles: Success when it resolved, Error when it rejected. */
    method Settle(resolved: bool)
      requires status == Loading
      modifies this
      ensures form == old(form)
      ensures status == (if resolved then Success else Error)
    {
      status := if resolved then Success else Error;
    }

    /** Closing the success alert, which is only shown on Success. */
    method CloseAlert()
      requires status == Success
      modifies this
      ensures form == old(form) && status == Idle
    {
      status := Idle;
    }

    /** `handleReset`: once confirmed, the initial form with the clock's date and time. */
    method Reset(confirmed: bool, date: string, time: string)
      modifies this
      ensures status == old(status)
      ensures confirmed ==> form == WithClock(InitialForm(), date, time)
      ensures !confirmed ==> form == old(form)
    {
      if confirmed {
        form := WithClock(InitialForm(), date, time);
      }
    }
  }
}
