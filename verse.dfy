/**
 * The verse overlay of showBiblePage in public/scene.js: a session-scoped
 * storage key holds the index of the passage on show. Opening reuses a stored
 * index or draws and stores a fresh one, "New verse" overwrites it, and each of
 * the three ways of dismissing the overlay removes it.
 *
 * The index is stored as `String(idx)` and read back with `parseInt(s, 10)`;
 * both are modelled on decimal digit strings. `Math.random()` results are
 * passed in as numbers in [0, 1).
 */
module Verse {
  import opened Wrappers

  /** The length of the passage table of lines 296-302. */
  const VerseCount: nat := 5

  // ---------------------------------------------------------------------------
  // String(n) and parseInt(s, 10)
  // ---------------------------------------------------------------------------

  predicate IsDigit(c: char) { '0' <= c <= '9' }

  function DigitValue(c: char): nat
    requires IsDigit(c)
  {
    (c as int - '0' as int) as nat
  }

  function DigitChar(d: nat): (c: char)
    requires d < 10
    ensures IsDigit(c) && DigitValue(c) == d
  {
    ('0' as int + d) as char
  }

  /** `String(n)` for a non-negative integer: its decimal digits, without leading zeros. */
  function NatToString(n: nat): (s: string)
    ensures |s| > 0
    ensures forall k :: 0 <= k < |s| ==> IsDigit(s[k])
    ensures |s| > 1 ==> s[0] != '0'
  {
    if n < 10 then [DigitChar(n)] else NatToString(n / 10) + [DigitChar(n % 10)]
  }

  /** The value of a string of decimal digits. */
  function DigitsValue(ds: string): nat
    requires forall k :: 0 <= k < |ds| ==> IsDigit(ds[k])
  {
    if ds == [] then 0 else DigitsValue(ds[..|ds| - 1]) * 10 + DigitValue(ds[|ds| - 1])
  }

  /** The characters `parseInt` skips before the number (ECMAScript's WhiteSpace and LineTerminator). */
  predicate IsJsSpace(c: char) {
    || c == '\t' || c == '\n' || c == '\U{B}' || c == '\U{C}' || c == '\r' || c == ' '
    || c == '\U{A0}' || c == '\U{1680}' || ('\U{2000}' <= c <= '\U{200A}')
    || c == '\U{2028}' || c == '\U{2029}' || c == '\U{202F}' || c == '\U{205F}'
    || c == '\U{3000}' || c == '\U{FEFF}'
  }

  function TrimStart(s: string): (t: string)
    ensures |t| <= |s| && t == s[|s| - |t|..]
    ensures |t| > 0 ==> !IsJsSpace(t[0])
    ensures forall k :: 0 <= k < |s| - |t| ==> IsJsSpace(s[k])
  {
    if |s| > 0 && IsJsSpace(s[0]) then TrimStart(s[1..]) else s
  }

  /** The longest prefix of decimal digits. */
  function DigitPrefix(s: string): (ds: string)
    ensures ds <= s
    ensures forall k :: 0 <= k < |ds| ==> IsDigit(ds[k])
    ensures |ds| < |s| ==> !IsDigit(s[|ds|])
  {
    if |s| > 0 && IsDigit(s[0]) then [s[0]] + DigitPrefix(s[1..]) else []
  }

  /**
   * `parseInt(s, 10)`: skip leading white space, read an optional sign, then the
   * longest run of decimal digits; no digits gives NaN (None).
   */
  function ParseInt(s: string): (r: Option<int>)
    ensures r.None? <==> DigitPrefix(SignStripped(TrimStart(s))) == []
  {
    var t := TrimStart(s);
    var ds := DigitPrefix(SignStripped(t));
    if ds == [] then None
    else if |t| > 0 && t[0] == '-' then Some(-(DigitsValue(ds) as int))
    else Some(DigitsValue(ds))
  }

  function SignStripped(t: string): string {
    if |t| > 0 && (t[0] == '+' || t[0] == '-') then t[1..] else t
  }

  lemma {:induction false} DigitPrefixOfDigits(s: string)
    requires forall k :: 0 <= k < |s| ==> IsDigit(s[k])
    ensures DigitPrefix(s) == s
  {
    if |s| > 0 {
      DigitPrefixOfDigits(s[1..]);
    }
  }

  lemma {:induction false} ValueOfNatToString(n: nat)
    ensures DigitsValue(NatToString(n)) == n
  {
    if n >= 10 {
      var s := NatToString(n);
      ValueOfNatToString(n / 10);
      assert s[..|s| - 1] == NatToString(n / 10);
    }
  }

  lemma DigitIsNotSpace(c: char)
    requires IsDigit(c)
    ensures !IsJsSpace(c)
  {
  }

  /** White space is skipped only at the front: a string starting with anything else is kept whole. */
  lemma TrimStartKeeps(s: string)
    requires |s| > 0 && !IsJsSpace(s[0])
    ensures TrimStart(s) == s
  {
  }

  /** `parseInt(String(n), 10) == n`: a stored index reads back as itself. */
  lemma StringParseRoundTrip(n: nat)
    ensures ParseInt(NatToString(n)) == Some(n)
  {
    var s := NatToString(n);
    DigitIsNotSpace(s[0]);
    TrimStartKeeps(s);
    assert SignStripped(s) == s;
    DigitPrefixOfDigits(s);
    ValueOfNatToString(n);
  }

  // ---------------------------------------------------------------------------
  // Index selection and the session state
  // ---------------------------------------------------------------------------

  /** `Math.floor(Math.random() * verses.length)` (lines 305 and 326). */
  function PickIndex(u: real): (idx: nat)
    requires 0.0 <= u < 1.0
    ensures idx < VerseCount
    ensures idx as real <= u * VerseCount as real < idx as real + 1.0
  {
    (u * VerseCount as real).Floor
  }

  /** Every passage can be drawn: the random number i/5 selects passage i. */
  lemma EveryVerseReachable(i: nat)
    requires i < VerseCount
    ensures PickIndex(i as real / VerseCount as real) == i
  {
  }

  /**
   * `verses[idx]` for a parsed index (line 323): a passage when the index is in
   * range, nothing (an empty paragraph) for NaN or an index outside the table.
   */
  function Shown(parsed: Option<int>): (v: Option<nat>)
    ensures v.Some? <==> parsed.Some? && 0 <= parsed.value < VerseCount
    ensures v.Some? ==> v.value == parsed.value
  {
    if parsed.Some? && 0 <= parsed.value < VerseCount then Some(parsed.value as nat) else None
  }

  /** The three ways of dismissing the overlay (lines 312, 338 and 340). */
  datatype Dismissal = ByCloseButton | ByEscapeKey | ByBackdropClick

  /** One page lifetime of the overlay, over the session storage key 'christmasVerseIndex'. */
  class VerseSession {
    /** The value of the storage key, None when it is absent. */
    var stored: Option<string>
    /** Whether the overlay is in the document. */
    var open: bool
    /** The passage on show in the overlay, None for an empty paragraph. */
    var shown: Option<nat>
    /** The `keydown` listeners of line 339 still registered. */
    var escapeListeners: nat

    /**
     * An open overlay has its Escape listener; a listener left behind by the
     * close button (line 312 does not remove it) outlives a cleared key only.
     */
    ghost predicate Valid()
      reads this
    {
      && (open ==> escapeListeners >= 1)
      && (!open && escapeListeners > 0 ==> stored.None?)
    }

    /** A page load in a session whose storage holds `stored0`. */
    constructor (stored0: Option<string>)
      ensures Valid() && stored == stored0 && !open && shown.None? && escapeListeners == 0
    {
      stored := stored0;
      open := false;
      shown := None;
      escapeListeners := 0;
    }

    /**
     * showBiblePage (lines 304-306, 323, 339): with no stored key, draw an index
     * and store `String(idx)`; otherwise show `parseInt` of the stored value and
     * write nothing.
     */
    method Open(u: real)
      requires Valid() && !open
      requires 0.0 <= u < 1.0
      modifies this
      ensures Valid() && open && escapeListeners == old(escapeListeners) + 1
      ensures old(stored).None? ==>
                stored == Some(NatToString(PickIndex(u))) && shown == Some(PickIndex(u))
      ensures old(stored).Some? ==>
                stored == old(stored) && shown == Shown(ParseInt(old(stored).value))
    {
      if stored.None? {
        var idx := PickIndex(u);
        stored := Some(NatToString(idx));
        shown := Some(idx);
      } else {
        shown := Shown(ParseInt(stored.value));
      }
      open := true;
      escapeListeners := escapeListeners + 1;
    }

    /** The "New verse" button (line 326): draw again, store and show the new index. */
    method NewVerse(u: real)
      requires Valid() && open
      requires 0.0 <= u < 1.0
      modifies this
      ensures Valid() && open && escapeListeners == old(escapeListeners)
      ensures stored == Some(NatToString(PickIndex(u))) && shown == Some(PickIndex(u))
    {
      var idx := PickIndex(u);
      stored := Some(NatToString(idx));
      shown := Some(idx);
    }

    /** The close button (line 312): remove the overlay and the key; its Escape listener stays. */
    method CloseButton()
      requires Valid() && open
      modifies this
      ensures Valid() && !open && stored.None? && escapeListeners == old(escapeListeners)
      ensures shown == old(shown)
    {
      open := false;
      stored := None;
    }

    /**
     * An Escape key press (line 338): every registered listener removes its
     * overlay and the key and unregisters itself. Without an open overlay the
     * stored key is left as it is.
     */
    method EscapeKey()
      requires Valid()
      modifies this
      ensures Valid() && !open
      ensures old(open) ==> stored.None?
      ensures !old(open) ==> stored == old(stored)
      ensures escapeListeners == 0 && shown == old(shown)
    {
      if escapeListeners > 0 {
        open := false;
        stored := None;
        escapeListeners := 0;
      }
    }

    /** A click on the backdrop (line 340): remove the overlay, the key and its Escape listener. */
    method BackdropClick()
      requires Valid() && open
      modifies this
      ensures Valid() && !open && stored.None? && escapeListeners == old(escapeListeners) - 1
      ensures shown == old(shown)
    {
      open := false;
      stored := None;
      escapeListeners := escapeListeners - 1;
    }
  }

  /**
   * Opening the overlay, then reloading the page in the same session and
   * opening it again without dismissing it shows the same passage, whatever the
   * second random number and whatever the session held before.
   */
  method ReopenAfterReload(stored0: Option<string>, u1: real, u2: real)
    returns (first: Option<nat>, second: Option<nat>)
    requires 0.0 <= u1 < 1.0 && 0.0 <= u2 < 1.0
    ensures first == second
    ensures stored0.None? ==> first.Some? && first.value < VerseCount
  {
    var page1 := new VerseSession(stored0);
    page1.Open(u1);
    first := page1.shown;
    var page2 := new VerseSession(page1.stored);
    page2.Open(u2);
    second := page2.shown;
    if stored0.None? {
      StringParseRoundTrip(PickIndex(u1));
    }
  }

  /**
   * Each of the three dismissals followed by an open draws afresh: the passage
   * shown is the one the new random number selects.
   */
  method DismissThenOpen(how: Dismissal, u1: real, u2: real, u3: real) returns (shown: Option<nat>)
    requires 0.0 <= u1 < 1.0 && 0.0 <= u2 < 1.0 && 0.0 <= u3 < 1.0
    ensures shown == Some(PickIndex(u3))
  {
    var page := new VerseSession(None);
    page.Open(u1);
    page.NewVerse(u2);
    match how {
      case ByCloseButton => page.CloseButton();
      case ByEscapeKey => page.EscapeKey();
      case ByBackdropClick => page.BackdropClick();
    }
    page.Open(u3);
    shown := page.shown;
  }
}
