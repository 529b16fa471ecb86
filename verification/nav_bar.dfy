/**
 * The navigation bar's own state (src/components/NavBar.jsx): the search box
 * text and whether the page is scrolled.  A search is submitted by the button
 * or by Enter, only when the text is not blank once trimmed; the text is passed
 * on untrimmed and the box is cleared.
 */
module NavBar {
  import opened Maybe

  /**
   * The characters `String.prototype.trim` removes: WhiteSpace and
   * LineTerminator of ECMAScript (ECMA-262, sections 12.2 and 12.3).
   */
  predicate IsJsSpace(c: char)
  {
    var u := c as int;
    // TAB, VT, FF, SP, NBSP, ZWNBSP
    u == 0x09 || u == 0x0B || u == 0x0C || u == 0x20 || u == 0xA0 || u == 0xFEFF
    // the other space separators (general category Zs)
    || u == 0x1680 || (0x2000 <= u <= 0x200A) || u == 0x202F || u == 0x205F || u == 0x3000
    // LF, CR, LS, PS
    || u == 0x0A || u == 0x0D || u == 0x2028 || u == 0x2029
  }

  predicate Blank(s: string)
  {
    forall k :: 0 <= k < |s| ==> IsJsSpace(s[k])
  }

  /** Drops the leading spaces. */
  function TrimStart(s: string): (t: string)
    ensures |t| <= |s| && t == s[|s| - |t|..]
    ensures Blank(s[..|s| - |t|])
    ensures t != [] ==> !IsJsSpace(t[0])
  {
    if s != [] && IsJsSpace(s[0]) then
      var t := TrimStart(s[1..]);
      assert s[1..][..|s| - 1 - |t|] == s[1..|s| - |t|];
      t
    else s
  }

  /** Drops the trailing spaces. */
  function TrimEnd(s: string): (t: string)
    ensures |t| <= |s| && t == s[..|t|]
    ensures Blank(s[|t|..])
    ensures t != [] ==> !IsJsSpace(t[|t| - 1])
  {
    if s != [] && IsJsSpace(s[|s| - 1]) then
      var t := TrimEnd(s[..|s| - 1]);
      assert s[|t|..] == s[..|s| - 1][|t|..] + [s[|s| - 1]];
      t
    else s
  }

  /** `t` is the slice `s[i..j]` of `s` and only spaces lie outside it. */
  ghost predicate TrimmedAt(s: string, t: string, i: int, j: int)
  {
    0 <= i <= j <= |s| && t == s[i..j] && Blank(s[..i]) && Blank(s[j..])
  }

  /** `text.trim()`: the text without its leading and trailing spaces. */
  function Trim(s: string): (t: string)
    ensures exists i, j :: TrimmedAt(s, t, i, j)
    ensures t != [] ==> !IsJsSpace(t[0]) && !IsJsSpace(t[|t| - 1])
  {
    var u := TrimStart(s);
    var t := TrimEnd(u);
    TrimmedInside(s, u, t);
    t
  }

  /** Trimming the end of the trimmed start leaves a slice with spaces on either side. */
  lemma TrimmedInside(s: string, u: string, t: string)
    requires |u| <= |s| && u == s[|s| - |u|..] && Blank(s[..|s| - |u|])
    requires |t| <= |u| && t == u[..|t|] && Blank(u[|t|..])
    ensures TrimmedAt(s, t, |s| - |u|, |s| - |u| + |t|)
  {
    var i := |s| - |u|;
    assert t == s[i..i + |t|];
    assert u[|t|..] == s[i + |t|..];
  }

  /** The trimmed text is empty exactly when the text is made of spaces only. */
  lemma TrimEmptyIffBlank(s: string)
    ensures Trim(s) == "" <==> Blank(s)
  {
    var t := Trim(s);
    var i, j :| TrimmedAt(s, t, i, j);
    if t == "" {
      forall k | 0 <= k < |s|
        ensures IsJsSpace(s[k])
      {
        if k < i {
          assert s[..i][k] == s[k];
        } else {
          assert s[j..][k - j] == s[k];
        }
      }
    } else {
      assert s[i] == t[0];
    }
  }

  /**
   * What a submission hands to `onSearch`: the untrimmed text, or nothing when
   * the text is blank.
   */
  function Submission(text: string): (sub: Option<string>)
    ensures sub.Some? <==> exists k :: 0 <= k < |text| && !IsJsSpace(text[k])
    ensures sub.Some? ==> sub.value == text
  {
    TrimEmptyIffBlank(text);
    if Trim(text) != "" then Some(text) else None
  }

  class NavBarState {
    var searchCity: string
    var isScrolled: bool

    /** An empty search box on an unscrolled page. */
    constructor ()
      ensures searchCity == "" && !isScrolled
    {
      searchCity := "";
      isScrolled := false;
    }

    /** The text field's `onChange`: the box holds what was typed. */
    method OnChange(value: string)
      modifies this
      ensures searchCity == value && isScrolled == old(isScrolled)
    {
      searchCity := value;
    }

    /**
     * `handleSearchClick`: a non-blank text is handed to `onSearch` (the
     * returned value) and the box is cleared; a blank one changes nothing.
     */
    method HandleSearchClick() returns (searched: Option<string>)
      modifies this
      ensures searched == Submission(old(searchCity))
      ensures searchCity == if searched.Some? then "" else old(searchCity)
      ensures isScrolled == old(isScrolled)
    {
      if Trim(searchCity) != "" {
        searched := Some(searchCity);
        searchCity := "";
      } else {
        searched := None;
      }
    }

    /** `handleKeyPress`: Enter acts as the search button, any other key does nothing. */
    method HandleKeyPress(key: string) returns (searched: Option<string>)
      modifies this
      ensures key == "Enter" ==> searched == Submission(old(searchCity))
      ensures key != "Enter" ==> searched == None
      ensures searchCity == if searched.Some? then "" else old(searchCity)
      ensures isScrolled == old(isScrolled)
    {
      if key == "Enter" && Trim(searchCity) != "" {
        searched := Some(searchCity);
        searchCity := "";
      } else {
        searched := None;
      }
    }

    /** The scroll listener: the bar counts as scrolled past 10 pixels. */
    method HandleScroll(scrollY: real)
      modifies this
      ensures isScrolled <==> scrollY > 10.0
      ensures searchCity == old(searchCity)
    {
      if scrollY > 10.0 {
        isScrolled := true;
      } else {
        isScrolled := false;
      }
    }
  }
}
