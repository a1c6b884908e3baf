/** The reminder shown next to a collapsed diff that hides comments: whether
    it is visible, its animation variant, its label, and its click handler. */
module DiffCommentReminder {

  datatype Variant = Visible | Invisible

  /** What the component renders for one set of props; `onClick` is the
      handler a click invokes. */
  datatype Reminder<H> = Reminder(numberOfComments: nat, isVisible: bool, animate: Variant,
                                  text: string, onClick: H)

  predicate IsDigit(c: char) {
    '0' <= c <= '9'
  }

  predicate AllDigits(s: string) {
    forall i :: 0 <= i < |s| ==> IsDigit(s[i])
  }

  /** The number a string of decimal digits denotes. */
  function DigitsValue(s: string): nat
    requires AllDigits(s)
  {
    if s == [] then 0
    else DigitsValue(s[..|s| - 1]) * 10 + (s[|s| - 1] - '0') as nat
  }

  /** How a count is rendered as text: decimal, no leading zeros. */
  function Decimal(n: nat): (s: string)
    ensures s != [] && AllDigits(s)
    ensures DigitsValue(s) == n
    ensures s[0] == '0' ==> s == "0"
  {
    var last := ['0' + (n % 10) as char];
    if n < 10 then last
    else
      var s := Decimal(n / 10) + last;
      assert s[..|s| - 1] == Decimal(n / 10);
      s
  }

  /** The longest prefix of digits. */
  function LeadingDigits(s: string): (d: string)
    ensures AllDigits(d)
  {
    if s == [] || !IsDigit(s[0]) then [] else [s[0]] + LeadingDigits(s[1..])
  }

  /** The count a reader takes from the start of a label. */
  function ReadCount(s: string): nat {
    DigitsValue(LeadingDigits(s))
  }

  lemma {:induction false} LeadingDigitsOfConcat(d: string, rest: string)
    requires AllDigits(d)
    requires rest == [] || !IsDigit(rest[0])
    ensures LeadingDigits(d + rest) == d
  {
    if d != [] {
      assert (d + rest)[1..] == d[1..] + rest;
      LeadingDigitsOfConcat(d[1..], rest);
    }
  }

  /** `<count> hidden comment`, with an `s` exactly when the count exceeds one:
      the count reads back from the label, and the label ends in `s` exactly
      for a plural. */
  function Label(n: nat): (t: string)
    ensures ReadCount(t) == n
    ensures t != [] && (t[|t| - 1] == 's' <==> n > 1)
  {
    var rest := " hidden comment" + (if n > 1 then "s" else "");
    LeadingDigitsOfConcat(Decimal(n), rest);
    Decimal(n) + rest
  }

  /** The component for props `comments` (keyed by line), `isDiffCollapsed`
      and `uncollapseDiff`. */
  function Render<C, H>(comments: map<string, C>, isDiffCollapsed: bool, uncollapseDiff: H): (r: Reminder<H>)
    ensures r.numberOfComments == |comments.Keys|
    ensures r.isVisible <==> isDiffCollapsed && comments != map[]
    ensures r.animate == Visible <==> r.isVisible
    ensures r.text == Label(r.numberOfComments)
    ensures r.onClick == uncollapseDiff
  {
    var numberOfComments := |comments.Keys|;
    var isVisible := isDiffCollapsed && numberOfComments > 0;
    Reminder(numberOfComments, isVisible, if isVisible then Visible else Invisible,
             Label(numberOfComments), uncollapseDiff)
  }

  /** A collapsed diff with comments shows the reminder, and the reminder
      says how many comments are hidden. */
  lemma {:induction false} CollapsedWithCommentsShowsCount<C, H>(comments: map<string, C>, uncollapseDiff: H)
    requires comments != map[]
    ensures Render(comments, true, uncollapseDiff).isVisible
    ensures ReadCount(Render(comments, true, uncollapseDiff).text) == |comments|
  {
  }
}
