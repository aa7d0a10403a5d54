/** The comma-separated group list: configured by the administrator, split and trimmed into a list, and
    joined again into the impersonation header. */
module Groups {
  import opened Text

  function Split(s: string): seq<string>
    decreases |s|
  {
    match Cut(s, ',')
    case None => [s]
    case Some((a, b)) => CutExact(s, ',', a, b); [a] + Split(b)
  }

  function Join(gs: seq<string>): string {
    if gs == [] then "" else if |gs| == 1 then gs[0] else gs[0] + "," + Join(gs[1..])
  }

  function TrimLeft(s: string): string {
    if s != "" && IsSpace(s[0]) then TrimLeft(s[1..]) else s
  }

  function TrimRight(s: string): string {
    if s != "" && IsSpace(s[|s| - 1]) then TrimRight(s[..|s| - 1]) else s
  }

  function Trim(s: string): string {
    TrimRight(TrimLeft(s))
  }

  function TrimEach(gs: seq<string>): seq<string> {
    seq(|gs|, i requires 0 <= i < |gs| => Trim(gs[i]))
  }

  const DEFAULT_GROUPS: seq<string> := ["system:authenticated", "wireguard-peers"]

  function ParseGroups(s: string): seq<string> {
    if s == "" then DEFAULT_GROUPS else TrimEach(Split(s))
  }

  /** Trims the names of a list in place. */
  method TrimInPlace(groups: array<string>)
    modifies groups
    ensures groups[..] == TrimEach(old(groups[..]))
  {
    for i := 0 to groups.Length
      invariant forall j | 0 <= j < i :: groups[j] == Trim(old(groups[j]))
      invariant forall j | i <= j < groups.Length :: groups[j] == old(groups[j])
    {
      groups[i] := Trim(groups[i]);
    }
  }

  /** The configured list: one name for each piece between commas, freed of outer white space and of
      nothing else; without a configuration the two default groups. */
  method ReadGroups(s: string) returns (groups: seq<string>)
    ensures groups == ParseGroups(s)
    ensures s == "" ==> groups == ["system:authenticated", "wireguard-peers"]
    ensures s != "" ==> |groups| == |Split(s)|
                        && forall i | 0 <= i < |groups| :: Trimmed(groups[i]) && Leaves(Split(s)[i], groups[i])
  {
    if s == "" {
      return DEFAULT_GROUPS;
    }
    var parts := Split(s);
    var a := new string[|parts|](i requires 0 <= i < |parts| => parts[i]);
    assert a[..] == parts;
    TrimInPlace(a);
    groups := a[..];
    forall i | 0 <= i < |groups| ensures Trimmed(groups[i]) && Leaves(Split(s)[i], groups[i]) {
      TrimWorks(parts[i], groups[i]);
    }
  }

  // ---------- Splitting and joining are inverse ----------

  lemma {:induction false} SplitPieces(s: string)
    ensures Split(s) != [] && forall i | 0 <= i < |Split(s)| :: ',' !in Split(s)[i]
    ensures |Split(s)| == 1 <==> ',' !in s
    ensures ',' !in s ==> Split(s) == [s]
    decreases |s|
  {
    if ',' !in s {
      match Cut(s, ',')
      case None =>
      case Some((a, b)) => CutExact(s, ',', a, b);
    } else {
      HasCut(s);
      var (a, b) := Cut(s, ',').value;
      CutExact(s, ',', a, b);
      SplitPieces(b);
    }
    match Cut(s, ',')
    case None => NoCut(s);
    case Some(_) =>
  }

  lemma {:induction false} HasCut(s: string)
    requires ',' in s
    ensures Cut(s, ',').Some?
  {
    if s[0] != ',' {
      assert s == [s[0]] + s[1..];
      HasCut(s[1..]);
    }
  }

  lemma {:induction false} NoCut(s: string)
    requires Cut(s, ',').None?
    ensures ',' !in s
  {
    if s != "" {
      NoCut(s[1..]);
      assert s == [s[0]] + s[1..];
    }
  }

  lemma {:induction false} SplitJoin(gs: seq<string>)
    requires gs != [] && forall i | 0 <= i < |gs| :: ',' !in gs[i]
    ensures Split(Join(gs)) == gs
  {
    if |gs| == 1 {
      SplitPieces(gs[0]);
    } else {
      var rest := Join(gs[1..]);
      assert Join(gs) == gs[0] + [','] + rest;
      CutExact(Join(gs), ',', gs[0], rest);
      SplitJoin(gs[1..]);
      assert gs == [gs[0]] + gs[1..];
    }
  }

  lemma {:induction false} JoinSplit(s: string)
    ensures Join(Split(s)) == s
    decreases |s|
  {
    match Cut(s, ',')
    case None =>
    case Some((a, b)) =>
      CutExact(s, ',', a, b);
      JoinSplit(b);
      SplitPieces(b);
      assert Split(s)[1..] == Split(b);
  }

  // ---------- Trimming ----------

  predicate Trimmed(s: string) {
    s == "" || (!IsSpace(s[0]) && !IsSpace(s[|s| - 1]))
  }

  predicate AllSpace(s: string) {
    forall c | c in s :: IsSpace(c)
  }

  /** White space can be cut off both ends of `s` so that `t` is left. */
  ghost predicate Leaves(s: string, t: string) {
    exists l, r :: Cuts(s, l, t, r)
  }

  predicate Cuts(s: string, l: string, t: string, r: string) {
    s == l + t + r && AllSpace(l) && AllSpace(r)
  }

  lemma {:induction false} TrimLeftStops(s: string) returns (l: string)
    ensures TrimLeft(s) == "" || !IsSpace(TrimLeft(s)[0])
    ensures s == l + TrimLeft(s) && AllSpace(l)
  {
    if s != "" && IsSpace(s[0]) {
      var rest := TrimLeftStops(s[1..]);
      l := [s[0]] + rest;
      assert s == [s[0]] + s[1..];
    } else {
      l := "";
    }
  }

  lemma {:induction false} TrimRightStops(s: string) returns (r: string)
    ensures TrimRight(s) == "" || !IsSpace(TrimRight(s)[|TrimRight(s)| - 1])
    ensures s == TrimRight(s) + r && AllSpace(r)
  {
    if s != "" && IsSpace(s[|s| - 1]) {
      var rest := TrimRightStops(s[..|s| - 1]);
      r := rest + [s[|s| - 1]];
      assert s == s[..|s| - 1] + [s[|s| - 1]];
    } else {
      r := "";
    }
  }

  /** The first character that is no white space is in the same place whatever is cut off before it. */
  lemma SameCutLeft(s: string, l: string, t: string, r: string, l': string, t': string, r': string)
    requires Cuts(s, l, t, r) && Cuts(s, l', t', r') && t != "" && !IsSpace(t[0])
    ensures |l'| <= |l|
  {
    assert s[|l|] == t[0];
    assert forall i | 0 <= i < |l'| :: s[i] == l'[i] && l'[i] in l';
  }

  lemma SameCutRight(s: string, l: string, t: string, r: string, l': string, t': string, r': string)
    requires Cuts(s, l, t, r) && Cuts(s, l', t', r') && t != "" && !IsSpace(t[|t| - 1])
    ensures |r'| <= |r|
  {
    var i := |l| + |t| - 1;
    assert s[i] == t[|t| - 1];
    var from := |l'| + |t'|;
    assert forall j | from <= j < |s| :: s[j] == r'[j - from] && r'[j - from] in r';
  }

  lemma SpaceLeavesNothing(s: string, l: string, t: string, r: string)
    requires Cuts(s, l, t, r) && AllSpace(s) && Trimmed(t)
    ensures t == ""
  {
    assert forall c | c in t :: c in s;
  }

  lemma SameCut(s: string, l: string, t: string, r: string, l': string, t': string, r': string)
    requires Cuts(s, l, t, r) && Cuts(s, l', t', r') && Trimmed(t) && Trimmed(t')
    ensures t == t'
  {
    if t == "" {
      SpaceLeavesNothing(s, l', t', r');
    } else if t' == "" {
      SpaceLeavesNothing(s, l, t, r);
    } else {
      SameCutLeft(s, l, t, r, l', t', r');
      SameCutLeft(s, l', t', r', l, t, r);
      SameCutRight(s, l, t, r, l', t', r');
      SameCutRight(s, l', t', r', l, t, r);
      assert t == s[|l|..|s| - |r|] && t' == s[|l'|..|s| - |r'|];
    }
  }

  lemma TrimCuts(s: string) returns (l: string, r: string)
    ensures Cuts(s, l, Trim(s), r) && Trimmed(Trim(s))
  {
    l := TrimLeftStops(s);
    r := TrimRightStops(TrimLeft(s));
  }

  /** Trimming removes exactly outer white space: the trimmed text is the one text with no white space at
      either end that is left when nothing but white space is cut off the ends. So trimming leaves alone
      exactly what is trimmed already. */
  lemma TrimWorks(s: string, t: string)
    ensures t == Trim(s) <==> Trimmed(t) && Leaves(s, t)
    ensures Trim(s) == s <==> Trimmed(s)
    ensures forall c | c in Trim(s) :: c in s
  {
    var l, r := TrimCuts(s);
    if Trimmed(t) && Leaves(s, t) {
      var l', r' :| Cuts(s, l', t, r');
      SameCut(s, l, Trim(s), r, l', t, r');
    }
    if Trimmed(s) {
      assert Cuts(s, "", s, "");
      SameCut(s, l, Trim(s), r, "", s, "");
    }
  }

  /** White space, character by character. */
  lemma SpaceExactly(c: char)
    ensures IsSpace(c) <==> c in "\t\n\U{0B}\U{0C}\r \U{85}\U{A0}\U{1680}\U{2000}\U{2001}\U{2002}\U{2003}\U{2004}\U{2005}\U{2006}\U{2007}\U{2008}\U{2009}\U{200A}\U{2028}\U{2029}\U{202F}\U{205F}\U{3000}"
  {
  }

  // ---------- The round trip ----------

  /** A list as the parser produces them. */
  predicate Proper(gs: seq<string>) {
    gs != [] && forall i | 0 <= i < |gs| :: ',' !in gs[i] && Trimmed(gs[i])
  }

  lemma ParsedIsProper(s: string)
    ensures Proper(ParseGroups(s))
  {
    if s != "" {
      SplitPieces(s);
      forall i | 0 <= i < |Split(s)| ensures ',' !in Trim(Split(s)[i]) && Trimmed(Trim(Split(s)[i])) {
        TrimWorks(Split(s)[i], Trim(Split(s)[i]));
      }
    }
  }

  lemma JoinEmpty(gs: seq<string>)
    requires gs != []
    ensures Join(gs) == "" <==> gs == [""]
  {
    if |gs| > 1 {
      assert ',' in Join(gs);
    }
  }

  /** A header written from a list of names reads back as that list exactly if the list is proper and is
      not the single empty name, which the defaults take over. */
  lemma HeaderRoundTrip(gs: seq<string>)
    requires gs != []
    ensures ParseGroups(Join(gs)) == gs <==> Proper(gs) && gs != [""]
  {
    ParsedIsProper(Join(gs));
    JoinEmpty(gs);
    if Proper(gs) && gs != [""] {
      SplitJoin(gs);
      forall i | 0 <= i < |gs| ensures Trim(gs[i]) == gs[i] {
        TrimWorks(gs[i], gs[i]);
      }
    }
  }

  /** Parsing the configured string, joining and parsing again gives the same groups, except when the
      string is a single name of nothing but white space. */
  lemma GroupsRoundTrip(s: string)
    ensures ParseGroups(Join(ParseGroups(s))) == ParseGroups(s) <==> s == "" || ',' in s || Trim(s) != ""
  {
    ParsedIsProper(s);
    HeaderRoundTrip(ParseGroups(s));
    if s != "" {
      SplitPieces(s);
    }
  }
}
