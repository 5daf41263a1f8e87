/** The template filling of the quick e-mail dialog: five placeholders,
    replaced one after the other, each everywhere it occurs, by the contact's
    first name, the company, the city, the business type and the publication,
    with a fallback for each missing value. */
module QuickEmail {
  import opened Crm
  import opened Seqs

  // ---------------------------------------------------------------------
  // Literal global replacement (`text.replace(/literal/g, value)`)

  predicate StartsWith(s: string, pat: string)
  {
    |pat| <= |s| && s[..|pat|] == pat
  }

  /** `pat` occurs somewhere in `s`. */
  ghost predicate Occurs(s: string, pat: string)
  {
    exists i :: 0 <= i <= |s| - |pat| && StartsWith(s[i..], pat)
  }

  /** Scans left to right; a match is replaced and skipped, so matches never
      overlap and the inserted text is not scanned again. */
  function ReplaceAll(text: string, pat: string, value: string): (r: string)
    requires pat != []
    decreases |text|
  {
    if text == [] then ""
    else if StartsWith(text, pat) then value + ReplaceAll(text[|pat|..], pat, value)
    else [text[0]] + ReplaceAll(text[1..], pat, value)
  }

  /** `text.split(pat)` for a literal separator: the pieces between the
      left-to-right, non-overlapping matches. */
  function Split(text: string, pat: string): (parts: seq<string>)
    requires pat != []
    ensures |parts| >= 1
    decreases |text|
  {
    if text == [] then [""]
    else if StartsWith(text, pat) then [""] + Split(text[|pat|..], pat)
    else
      var rest := Split(text[1..], pat);
      [[text[0]] + rest[0]] + rest[1..]
  }

  lemma JoinGrowsHead(c: char, parts: seq<string>, sep: string)
    requires parts != []
    ensures Join([[c] + parts[0]] + parts[1..], sep) == [c] + Join(parts, sep)
  {
    var p := [[c] + parts[0]] + parts[1..];
    if |parts| > 1 {
      assert p[1..] == parts[1..];
    }
  }

  /** Replacing is splitting at the matches and joining with the value. */
  lemma {:induction false} ReplaceIsSplitJoin(text: string, pat: string, value: string)
    requires pat != []
    ensures ReplaceAll(text, pat, value) == Join(Split(text, pat), value)
    decreases |text|
  {
    if text == [] {
    } else if StartsWith(text, pat) {
      ReplaceIsSplitJoin(text[|pat|..], pat, value);
      var parts := [""] + Split(text[|pat|..], pat);
      assert parts[1..] == Split(text[|pat|..], pat);
      assert "" + value + Join(parts[1..], value) == value + Join(parts[1..], value);
    } else {
      ReplaceIsSplitJoin(text[1..], pat, value);
      JoinGrowsHead(text[0], Split(text[1..], pat), value);
    }
  }

  /** Replacing a pattern by itself changes nothing. */
  lemma {:induction false} ReplaceBySelf(text: string, pat: string)
    requires pat != []
    ensures ReplaceAll(text, pat, pat) == text
    decreases |text|
  {
    if text == [] {
    } else if StartsWith(text, pat) {
      ReplaceBySelf(text[|pat|..], pat);
      assert text == text[..|pat|] + text[|pat|..];
    } else {
      ReplaceBySelf(text[1..], pat);
      assert text == [text[0]] + text[1..];
    }
  }

  /** Joining the pieces with the pattern gives the text back. */
  lemma SplitJoin(text: string, pat: string)
    requires pat != []
    ensures Join(Split(text, pat), pat) == text
  {
    ReplaceBySelf(text, pat);
    ReplaceIsSplitJoin(text, pat, pat);
  }

  /** The first piece is a prefix of the text and, when there are more
      pieces, the pattern follows it. */
  lemma {:induction false} SplitHead(text: string, pat: string)
    requires pat != []
    ensures var parts := Split(text, pat);
      && |parts[0]| <= |text| && text[..|parts[0]|] == parts[0]
      && (|parts| > 1 ==> StartsWith(text[|parts[0]|..], pat))
    decreases |text|
  {
    if text != [] && !StartsWith(text, pat) {
      SplitHead(text[1..], pat);
      var rest := Split(text[1..], pat);
      assert text[1..][..|rest[0]|] == rest[0];
      assert text[..|rest[0]| + 1] == [text[0]] + text[1..][..|rest[0]|];
      assert text[|rest[0]| + 1..] == text[1..][|rest[0]|..];
    }
  }

  /** No piece contains the pattern. */
  lemma {:induction false} SplitPiecesFree(text: string, pat: string)
    requires pat != []
    ensures forall k :: 0 <= k < |Split(text, pat)| ==> !Occurs(Split(text, pat)[k], pat)
    decreases |text|
  {
    var parts := Split(text, pat);
    if text == [] {
      TooShort(parts[0], pat);
    } else if StartsWith(text, pat) {
      SplitPiecesFree(text[|pat|..], pat);
      TooShort(parts[0], pat);
      assert forall k :: 1 <= k < |parts| ==> parts[k] == Split(text[|pat|..], pat)[k - 1];
    } else {
      var rest := Split(text[1..], pat);
      SplitPiecesFree(text[1..], pat);
      SplitHead(text[1..], pat);
      var head := [text[0]] + rest[0];
      assert head == text[..|head|];
      forall i | 0 <= i <= |head| - |pat|
        ensures !StartsWith(head[i..], pat)
      {
        if i == 0 {
          assert head[..|pat|] == text[..|pat|];
        } else {
          assert head[i..] == rest[0][i - 1..];
        }
      }
      assert forall k :: 1 <= k < |parts| ==> parts[k] == rest[k];
    }
  }

  /** The meaning of a global replacement: the text is the pattern-free
      pieces joined by the pattern, and the result is the same pieces joined
      by the value. */
  lemma ReplaceAllMeaning(text: string, pat: string, value: string)
    requires pat != []
    ensures var parts := Split(text, pat);
      && text == Join(parts, pat)
      && (forall k :: 0 <= k < |parts| ==> !Occurs(parts[k], pat))
      && ReplaceAll(text, pat, value) == Join(parts, value)
  {
    SplitJoin(text, pat);
    SplitPiecesFree(text, pat);
    ReplaceIsSplitJoin(text, pat, value);
  }

  /** Text without the pattern is left as it is. */
  lemma {:induction false} ReplaceAbsent(text: string, pat: string, value: string)
    requires pat != [] && !Occurs(text, pat)
    ensures ReplaceAll(text, pat, value) == text
    decreases |text|
  {
    if text != [] {
      assert text[0..] == text;
      forall i | 0 <= i <= |text[1..]| - |pat|
        ensures !StartsWith(text[1..][i..], pat)
      {
        assert text[1..][i..] == text[i + 1..];
      }
      ReplaceAbsent(text[1..], pat, value);
      assert text == [text[0]] + text[1..];
    }
  }

  /** A text lacking one of the pattern's characters cannot contain it. */
  lemma MissingCharacter(s: string, pat: string, k: nat)
    requires k < |pat| && pat[k] !in s
    ensures !Occurs(s, pat)
  {
    forall i | 0 <= i <= |s| - |pat|
      ensures !StartsWith(s[i..], pat)
    {
      assert s[i..][..|pat|][k] == s[i + k];
      assert s[i + k] in s;
    }
  }

  /** A text shorter than the pattern cannot contain it. */
  lemma TooShort(s: string, pat: string)
    requires |s| < |pat|
    ensures !Occurs(s, pat)
  {
  }

  /** The pattern alone becomes the value. */
  lemma ReplaceWhole(pat: string, value: string)
    requires pat != []
    ensures ReplaceAll(pat, pat, value) == value
  {
    assert pat[|pat|..] == "";
    assert pat[..|pat|] == pat;
  }

  // ---------------------------------------------------------------------
  // The template variables

  const ContactPlaceholder: string := "{{contact_name}}"
  const CompanyPlaceholder: string := "{{company_name}}"
  const CityPlaceholder: string := "{{city}}"
  const BusinessPlaceholder: string := "{{business_type}}"
  const PublicationPlaceholder: string := "{{publication}}"

  /** `s.split(" ")[0]`: everything before the first space. */
  function FirstWord(s: string): (w: string)
    ensures |w| <= |s| && s[..|w|] == w
    ensures forall i :: 0 <= i < |w| ==> w[i] != ' '
    ensures |w| < |s| ==> s[|w|] == ' '
  {
    if s == [] || s[0] == ' ' then ""
    else [s[0]] + FirstWord(s[1..])
  }

  /** `value || fallback` for an optional string: the fallback also replaces the empty string. */
  function OrElse(value: Option<string>, fallback: string): (r: string)
    ensures value.Some? && value.value != "" ==> r == value.value
    ensures value.None? || value.value == "" ==> r == fallback
  {
    if value.Some? && value.value != "" then value.value else fallback
  }

  /** `account.contact_name?.split(" ")[0] || "there"`. */
  function FirstName(contactName: Option<string>): (r: string)
    ensures r != ""
    ensures contactName.Some? && FirstWord(contactName.value) != "" ==> r == FirstWord(contactName.value)
    ensures contactName.None? || FirstWord(contactName.value) == "" ==> r == "there"
  {
    if contactName.Some? then OrElse(Some(FirstWord(contactName.value)), "there") else "there"
  }

  function PublicationName(title: Option<Title>): (r: string)
    ensures title.Some? && title.value.name != "" ==> r == title.value.name
    ensures title.None? || title.value.name == "" ==> r == "our publication"
  {
    OrElse(if title.Some? then Some(title.value.name) else None, "our publication")
  }

  /** `applyTemplateVariables` (`QuickEmailDialog.tsx` lines 35-42): the replacements in their order. */
  function ApplyTemplateVariables(text: string, a: Account, title: Option<Title>): (r: string)
  {
    var withContact := ReplaceAll(text, ContactPlaceholder, FirstName(a.contactName));
    var withCompany := ReplaceAll(withContact, CompanyPlaceholder, OrElse(Some(a.companyName), ""));
    var withCity := ReplaceAll(withCompany, CityPlaceholder, OrElse(a.city, "your area"));
    var withBusiness := ReplaceAll(withCity, BusinessPlaceholder, OrElse(a.businessType, "your business"));
    ReplaceAll(withBusiness, PublicationPlaceholder, PublicationName(title))
  }

  // ---------------------------------------------------------------------
  // Properties

  /** A text holding none of the five placeholders comes back unchanged; in
      particular braced names such as `{{foo}}` pass through. */
  lemma NoPlaceholdersUnchanged(text: string, a: Account, title: Option<Title>)
    requires !Occurs(text, ContactPlaceholder) && !Occurs(text, CompanyPlaceholder)
    requires !Occurs(text, CityPlaceholder) && !Occurs(text, BusinessPlaceholder)
    requires !Occurs(text, PublicationPlaceholder)
    ensures ApplyTemplateVariables(text, a, title) == text
  {
    ReplaceAbsent(text, ContactPlaceholder, FirstName(a.contactName));
    ReplaceAbsent(text, CompanyPlaceholder, OrElse(Some(a.companyName), ""));
    ReplaceAbsent(text, CityPlaceholder, OrElse(a.city, "your area"));
    ReplaceAbsent(text, BusinessPlaceholder, OrElse(a.businessType, "your business"));
    ReplaceAbsent(text, PublicationPlaceholder, PublicationName(title));
  }

  /** Text inserted by an earlier replacement is scanned by the later ones:
      a contact name `{{city}}` ends up as the city. */
  lemma InsertedTextIsRescanned(a: Account, title: Option<Title>)
    requires a.contactName == Some("{{city}}") && a.city == Some("Leeds")
    ensures ApplyTemplateVariables(ContactPlaceholder, a, title) == "Leeds"
  {
    assert FirstWord("{{city}}") == "{{city}}";
    ReplaceWhole(ContactPlaceholder, CityPlaceholder);
    TooShort(CityPlaceholder, CompanyPlaceholder);
    ReplaceAbsent(CityPlaceholder, CompanyPlaceholder, OrElse(Some(a.companyName), ""));
    ReplaceWhole(CityPlaceholder, "Leeds");
    TooShort("Leeds", BusinessPlaceholder);
    ReplaceAbsent("Leeds", BusinessPlaceholder, OrElse(a.businessType, "your business"));
    TooShort("Leeds", PublicationPlaceholder);
    ReplaceAbsent("Leeds", PublicationPlaceholder, PublicationName(title));
  }

  /** Neither the city nor the business-type placeholder occurs in the
      publication placeholder (both hold a `y`, which it lacks). */
  lemma PlaceholdersApart()
    ensures !Occurs(PublicationPlaceholder, CityPlaceholder)
    ensures !Occurs(PublicationPlaceholder, BusinessPlaceholder)
  {
    assert CityPlaceholder[5] == 'y' && BusinessPlaceholder[12] == 'y';
    MissingCharacter(PublicationPlaceholder, CityPlaceholder, 5);
    MissingCharacter(PublicationPlaceholder, BusinessPlaceholder, 12);
  }

  /** The publication is inserted last, so nothing rescans it: a title named
      `{{city}}` stays as it is. */
  lemma PublicationIsNotRescanned(a: Account, t: Title)
    requires t.name == CityPlaceholder
    ensures ApplyTemplateVariables(PublicationPlaceholder, a, Some(t)) == CityPlaceholder
  {
    TooShort(PublicationPlaceholder, ContactPlaceholder);
    ReplaceAbsent(PublicationPlaceholder, ContactPlaceholder, FirstName(a.contactName));
    TooShort(PublicationPlaceholder, CompanyPlaceholder);
    ReplaceAbsent(PublicationPlaceholder, CompanyPlaceholder, OrElse(Some(a.companyName), ""));
    PlaceholdersApart();
    ReplaceAbsent(PublicationPlaceholder, CityPlaceholder, OrElse(a.city, "your area"));
    ReplaceAbsent(PublicationPlaceholder, BusinessPlaceholder, OrElse(a.businessType, "your business"));
    ReplaceWhole(PublicationPlaceholder, CityPlaceholder);
  }

  /** The greeting uses only the first word of the contact's name. */
  lemma GreetingUsesFirstWord(first: string, last: string, a: Account)
    requires first != [] && (forall i :: 0 <= i < |first| ==> first[i] != ' ')
    requires a.contactName == Some(first + " " + last)
    ensures FirstName(a.contactName) == first
  {
    var s := first + " " + last;
    var w := FirstWord(s);
    assert forall i :: 0 <= i < |first| ==> s[i] == first[i];
    assert s[|first|] == ' ';
  }
}
