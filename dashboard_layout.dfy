/** `frontend/components/dashboard-layout.tsx`: the dashboard frame's two pieces of logic: the avatar initials of the
    signed-in user and the page title shown in the header. */
module DashboardLayout {
  import opened Common

  /** The pieces of `s` between single spaces, as a split on " " yields them:
      empty pieces included, and always at least one piece. */
  function Split(s: string): (r: seq<string>)
    ensures |r| >= 1
  {
    if s == [] then [""]
    else if s[0] == ' ' then [""] + Split(s[1..])
    else
      var rest := Split(s[1..]);
      [[s[0]] + rest[0]] + rest[1..]
  }

  /** The first character of every piece, joined; an empty piece has no
      first character and contributes nothing to the join. */
  function Heads(words: seq<string>): string {
    if words == [] then ""
    else (if words[0] == "" then "" else [words[0][0]]) + Heads(words[1..])
  }

  /** Reference definition: the characters of `s` that start a word, that is,
      are not a space and follow a space or the start (`afterSpace`). */
  function WordStarts(s: string, afterSpace: bool): string {
    if s == [] then ""
    else (if s[0] != ' ' && afterSpace then [s[0]] else "") + WordStarts(s[1..], s[0] == ' ')
  }

  /** Joining the first characters of the split pieces picks out exactly the
      characters that start a word. */
  lemma {:induction false} HeadsAreWordStarts(s: string)
    ensures Heads(Split(s)) == WordStarts(s, true)
    ensures Heads(Split(s)[1..]) == WordStarts(s, false)
    decreases |s|
  {
    if s == [] {
    } else if s[0] == ' ' {
      HeadsAreWordStarts(s[1..]);
      assert Split(s)[1..] == Split(s[1..]);
    } else {
      HeadsAreWordStarts(s[1..]);
      var rest := Split(s[1..]);
      assert Split(s)[1..] == rest[1..];
      assert Heads(Split(s)) == [s[0]] + Heads(rest[1..]);
    }
  }

  /** A text of spaces only starts no word. */
  lemma {:induction false} SpacesStartNoWord(s: string, afterSpace: bool)
    requires forall i :: 0 <= i < |s| ==> s[i] == ' '
    ensures WordStarts(s, afterSpace) == ""
    decreases |s|
  {
    if s != [] {
      SpacesStartNoWord(s[1..], true);
    }
  }

  /** The avatar initials: "U" when the name is missing or empty, otherwise
      the upper-cased first letters of the words, at most two. */
  function Initials(fullName: Option<string>): (r: string)
    ensures fullName == None || fullName == Some("") ==> r == "U"
    ensures |r| <= 2
  {
    if fullName == None || fullName.value == "" then "U"
    else
      var joined := UpperText(Heads(Split(fullName.value)));
      if |joined| <= 2 then joined else joined[..2]
  }

  /** For a non-empty name, the initials are the upper-cased word-starting
      characters, truncated to two; a name of spaces alone gives "" and not "U". */
  lemma InitialsOfName(name: string)
    requires name != ""
    ensures var starts := UpperText(WordStarts(name, true));
            Initials(Some(name)) == if |starts| <= 2 then starts else starts[..2]
    ensures (forall i :: 0 <= i < |name| ==> name[i] == ' ') ==> Initials(Some(name)) == ""
  {
    HeadsAreWordStarts(name);
    if forall i :: 0 <= i < |name| ==> name[i] == ' ' {
      SpacesStartNoWord(name, true);
    }
  }

  /** Word starts of a concatenation: the second part continues from the
      last character of the first. */
  lemma {:induction false} WordStartsAppend(a: string, b: string, afterSpace: bool)
    ensures WordStarts(a + b, afterSpace)
         == WordStarts(a, afterSpace) + WordStarts(b, if a == [] then afterSpace else a[|a| - 1] == ' ')
    decreases |a|
  {
    if a != [] {
      var head: string := if a[0] != ' ' && afterSpace then [a[0]] else "";
      assert (a + b)[0] == a[0] && (a + b)[1..] == a[1..] + b;
      WordStartsAppend(a[1..], b, a[0] == ' ');
      if |a| > 1 {
        assert a[1..][|a| - 2] == a[|a| - 1];
      }
      assert WordStarts(a + b, afterSpace) == head + WordStarts(a[1..] + b, a[0] == ' ');
    } else {
      assert a + b == b;
    }
  }

  /** A word starts once, at its first character. */
  lemma {:induction false} WordHasOneStart(w: string, afterSpace: bool)
    requires w != []
    requires forall i :: 0 <= i < |w| ==> w[i] != ' '
    ensures WordStarts(w, afterSpace) == if afterSpace then [w[0]] else ""
    decreases |w|
  {
    if |w| > 1 {
      WordHasOneStart(w[1..], false);
    }
  }

  /** A first and a last name separated by one space give their two
      capitals, as "John Doe" gives "JD". */
  lemma TwoWordName(first: string, last: string)
    requires first != "" && last != ""
    requires forall i :: 0 <= i < |first| ==> first[i] != ' '
    requires forall i :: 0 <= i < |last| ==> last[i] != ' '
    ensures Initials(Some(first + " " + last)) == [AsciiUpper(first[0]), AsciiUpper(last[0])]
  {
    var name := first + " " + last;
    WordHasOneStart(first, true);
    WordHasOneStart(last, true);
    WordStartsAppend(first, " ", true);
    assert WordStarts(first + " ", true) == [first[0]];
    WordStartsAppend(first + " ", last, true);
    assert WordStarts(name, true) == [first[0], last[0]];
    InitialsOfName(name);
  }

  /** One entry of the side navigation. */
  datatype NavItem = NavItem(name: string, href: string)

  const Navigation := [
    NavItem("Dashboard", "/"),
    NavItem("Bins", "/bins"),
    NavItem("AI Alerts", "/alerts"),
    NavItem("Routes", "/routes"),
    NavItem("Reports", "/reports"),
    NavItem("Crew", "/crew"),
    NavItem("Map", "/map")
  ]

  /** The first entry of `items` whose link is `path`. */
  function FindByHref(items: seq<NavItem>, path: string): (r: Option<NavItem>)
    ensures r.Some? ==> r.value in items && r.value.href == path
    ensures r.None? <==> forall i :: 0 <= i < |items| ==> items[i].href != path
  {
    if items == [] then None
    else if items[0].href == path then Some(items[0])
    else FindByHref(items[1..], path)
  }

  /** The header title for the current path: the name of the matching
      navigation entry, or "Dashboard" when no entry matches. */
  function Title(path: string): (r: string)
    ensures (forall i :: 0 <= i < |Navigation| ==> Navigation[i].href != path) ==> r == "Dashboard"
    ensures exists i :: 0 <= i < |Navigation| && Navigation[i].name == r
  {
    var found := FindByHref(Navigation, path);
    if found.Some? && found.value.name != "" then found.value.name else "Dashboard"
  }

  /** The lookup finds an entry whose link no earlier entry shares. */
  lemma {:induction false} FindFirst(items: seq<NavItem>, k: nat)
    requires k < |items|
    requires forall j :: 0 <= j < k ==> items[j].href != items[k].href
    ensures FindByHref(items, items[k].href) == Some(items[k])
    decreases k
  {
    if k > 0 {
      FindFirst(items[1..], k - 1);
    }
  }

  /** No two navigation entries share a link, and every entry has a name. */
  lemma NavigationWellFormed()
    ensures forall j, k :: 0 <= j < k < |Navigation| ==> Navigation[j].href != Navigation[k].href
    ensures forall k :: 0 <= k < |Navigation| ==> Navigation[k].name != ""
  {
    var hrefs := seq(|Navigation|, j requires 0 <= j < |Navigation| => Navigation[j].href);
    assert |hrefs[0]| == 1 && |hrefs[1]| == 5 && |hrefs[2]| == 7 && |hrefs[3]| == 7
        && |hrefs[4]| == 8 && |hrefs[5]| == 5 && |hrefs[6]| == 4;
    assert hrefs[1][1] != hrefs[5][1] && hrefs[2][1] != hrefs[3][1];
  }

  /** Every navigation link shows its own entry's name as the title. */
  lemma TitleOfEachLink(k: nat)
    requires k < |Navigation|
    ensures Title(Navigation[k].href) == Navigation[k].name
  {
    NavigationWellFormed();
    FindFirst(Navigation, k);
  }
}
