/** The two scope tables of the proxy, as templates. */
module ScopeTables {
  /** The names the scope tables are written with: none holds a `{` or a space. */
  type ScopeName = s: string | '{' !in s && ' ' !in s

  /** A scope template: an organisation-level scope such as `/fed.read`, or an
      account-level scope `/accounts/{accountID}/<resource>`. */
  datatype ScopeTemplate = OrgScope(path: ScopeName) | AccountScope(resource: ScopeName)

  // Each template is its own constant, so each `ScopeName` obligation is discharged
  // per constant.
  const AccountsRead: ScopeTemplate := OrgScope("/accounts.read")
  const AccountsWrite: ScopeTemplate := OrgScope("/accounts.write")
  const FedRead: ScopeTemplate := OrgScope("/fed.read")
  const ProfileEnrichmentRead: ScopeTemplate := OrgScope("/profile-enrichment.read")
  const BankAccountsRead: ScopeTemplate := AccountScope("bank-accounts.read")
  const BankAccountsWrite: ScopeTemplate := AccountScope("bank-accounts.write")
  const CapabilitiesRead: ScopeTemplate := AccountScope("capabilities.read")
  const CapabilitiesWrite: ScopeTemplate := AccountScope("capabilities.write")
  const CardsRead: ScopeTemplate := AccountScope("cards.read")
  const CardsWrite: ScopeTemplate := AccountScope("cards.write")
  const ProfileRead: ScopeTemplate := AccountScope("profile.read")
  const ProfileWrite: ScopeTemplate := AccountScope("profile.write")
  const RepresentativesRead: ScopeTemplate := AccountScope("representatives.read")
  const RepresentativesWrite: ScopeTemplate := AccountScope("representatives.write")

  /** `scopes.withoutAccountID`. */
  const BasicTemplates: seq<ScopeTemplate> :=
    [AccountsRead, AccountsWrite, ProfileRead, FedRead, ProfileEnrichmentRead]

  /** `scopes.withAccountID`. */
  const FullTemplates: seq<ScopeTemplate> :=
    [AccountsRead, AccountsWrite, FedRead, ProfileEnrichmentRead,
     BankAccountsRead, BankAccountsWrite, CapabilitiesRead, CapabilitiesWrite,
     CardsRead, CardsWrite, ProfileRead, ProfileWrite,
     RepresentativesRead, RepresentativesWrite]
}

/** The OAuth scope resolver `getScopes`: one of two fixed scope tables, joined with
    single spaces, with every `{accountID}` placeholder replaced by the account id. */
module Scopes {
  import opened JsValue
  import opened ScopeTables

  const Placeholder: string := "{accountID}"

  /** The template's text, as written in the scope tables. */
  function TemplateText(t: ScopeTemplate): string
  {
    match t
    case OrgScope(path) => path
    case AccountScope(resource) => "/accounts/" + Placeholder + "/" + resource
  }

  /** The scope the template denotes for a given account id. */
  function FillTemplate(t: ScopeTemplate, accountID: string): string
  {
    match t
    case OrgScope(path) => path
    case AccountScope(resource) => "/accounts/" + accountID + "/" + resource
  }

  /** The table `getScopes` picks. */
  function Templates(getAllScopes: bool): seq<ScopeTemplate>
  {
    if getAllScopes then FullTemplates else BasicTemplates
  }

  function Texts(templates: seq<ScopeTemplate>): (r: seq<string>)
    ensures |r| == |templates|
  {
    seq(|templates|, k requires 0 <= k < |templates| => TemplateText(templates[k]))
  }

  function Filled(templates: seq<ScopeTemplate>, accountID: string): (r: seq<string>)
    ensures |r| == |templates|
  {
    seq(|templates|, k requires 0 <= k < |templates| => FillTemplate(templates[k], accountID))
  }

  /** The scope tables as strings. */
  function Table(getAllScopes: bool): seq<string>
  {
    Texts(Templates(getAllScopes))
  }

  /** `p` occurs somewhere in `s` as a contiguous piece. */
  predicate Occurs(p: string, s: string)
    decreases |s|
  {
    |s| >= |p| && (s[..|p|] == p || Occurs(p, s[1..]))
  }

  /** `s.replaceAll(pattern, replacement)` for a non-empty pattern: non-overlapping
      occurrences, found from left to right, are replaced literally. */
  function ReplaceAll(s: string, pattern: string, replacement: string): string
    requires pattern != ""
    decreases |s|
  {
    if |s| < |pattern| then s
    else if s[..|pattern|] == pattern then replacement + ReplaceAll(s[|pattern|..], pattern, replacement)
    else [s[0]] + ReplaceAll(s[1..], pattern, replacement)
  }

  /** `getScopes(accountID, getAllScopes)`. */
  function GetScopes(accountID: string, getAllScopes: bool): string
  {
    ReplaceAll(JoinWith(Table(getAllScopes), " "), Placeholder, accountID)
  }

  /** `s.split(sep)` for a one-character separator: the pieces between separators,
      including empty ones. */
  function Split(s: string, sep: char): (parts: seq<string>)
    ensures |parts| >= 1
    ensures forall k :: 0 <= k < |parts| ==> sep !in parts[k]
  {
    if s == [] then [""]
    else
      var rest := Split(s[1..], sep);
      if s[0] == sep then [""] + rest else [[s[0]] + rest[0]] + rest[1..]
  }

  /** Each template of a table with the placeholder replaced by `accountID`. */
  function Instantiate(table: seq<string>, accountID: string): (r: seq<string>)
    ensures |r| == |table|
  {
    seq(|table|, k requires 0 <= k < |table| => ReplaceAll(table[k], Placeholder, accountID))
  }

  // ---------------------------------------------------------------------------
  // Lemmas about occurrences and replacement

  /** Replacing leaves a string without occurrences of the pattern unchanged. */
  lemma {:induction false} ReplaceAllNoOccurrence(s: string, p: string, r: string)
    requires p != "" && !Occurs(p, s)
    ensures ReplaceAll(s, p, r) == s
    decreases |s|
  {
    if |s| >= |p| {
      ReplaceAllNoOccurrence(s[1..], p, r);
      assert [s[0]] + s[1..] == s;
    }
  }

  /** A string without `{` cannot contain the placeholder. */
  lemma {:induction false} NoBraceNoOccurrence(s: string)
    requires '{' !in s
    ensures !Occurs(Placeholder, s)
    decreases |s|
  {
    if |s| >= |Placeholder| {
      assert s[..|Placeholder|][0] == s[0];
      assert Placeholder[0] == '{';
      NoBraceNoOccurrence(s[1..]);
    }
  }

  /** Replacement distributes over a concatenation when no window of `a + b` that
      crosses the boundary can match, which holds when one of the two characters at
      the boundary does not appear in the pattern. */
  lemma {:induction false} ReplaceAllConcat(a: string, b: string, p: string, r: string)
    requires p != ""
    requires a == [] || b == [] || a[|a| - 1] !in p || b[0] !in p
    ensures ReplaceAll(a + b, p, r) == ReplaceAll(a, p, r) + ReplaceAll(b, p, r)
    decreases |a|
  {
    var ab := a + b;
    if a == [] {
      assert ab == b;
    } else if b == [] {
      assert ab == a;
    } else if |ab| < |p| {
      assert ReplaceAll(a, p, r) == a && ReplaceAll(b, p, r) == b;
    } else if |a| >= |p| {
      assert ab[..|p|] == a[..|p|];
      if a[..|p|] == p {
        assert ab[|p|..] == a[|p|..] + b;
        ReplaceAllConcat(a[|p|..], b, p, r);
      } else {
        assert ab[1..] == a[1..] + b;
        ReplaceAllConcat(a[1..], b, p, r);
      }
    } else {
      // the first window of a + b crosses the boundary, so it is not the pattern
      CrossingWindow(a, b, p);
      assert ab[1..] == a[1..] + b;
      ReplaceAllConcat(a[1..], b, p, r);
      assert ReplaceAll(a[1..], p, r) == a[1..];
      assert [a[0]] + a[1..] == a;
    }
  }

  /** A window that starts in `a` and ends in `b` holds both boundary characters, so
      it is not the pattern when one of them does not appear in the pattern. */
  lemma CrossingWindow(a: string, b: string, p: string)
    requires 0 < |a| < |p| <= |a + b|
    requires a[|a| - 1] !in p || b[0] !in p
    ensures (a + b)[..|p|] != p
  {
    var w := (a + b)[..|p|];
    assert w[|a| - 1] == a[|a| - 1];
    assert w[|a|] == b[0];
  }

  /** Concatenating two strings free of the pattern gives a string free of it, when
      one of the two characters at the boundary does not appear in the pattern. */
  lemma {:induction false} NoOccurrenceConcat(p: string, a: string, b: string)
    requires p != ""
    requires !Occurs(p, a) && !Occurs(p, b)
    requires a == [] || b == [] || a[|a| - 1] !in p || b[0] !in p
    ensures !Occurs(p, a + b)
    decreases |a|
  {
    var ab := a + b;
    if a == [] {
      assert ab == b;
    } else if b == [] {
      assert ab == a;
    } else if |ab| >= |p| {
      if |a| >= |p| {
        assert ab[..|p|] == a[..|p|];
      } else {
        CrossingWindow(a, b, p);
      }
      assert !Occurs(p, a[1..]);
      assert ab[1..] == a[1..] + b;
      NoOccurrenceConcat(p, a[1..], b);
    }
  }


  /** An account-level template `/accounts/{accountID}/<resource>` instantiates to
      `/accounts/<id>/<resource>`. */
  lemma AccountTemplate(resource: ScopeName, id: string)
    ensures ReplaceAll("/accounts/" + Placeholder + "/" + resource, Placeholder, id)
         == "/accounts/" + id + "/" + resource
  {
    var tail := "/" + resource;
    var t := Placeholder + tail;
    assert '/' !in Placeholder;
    ReplaceAllConcat("/accounts/", t, Placeholder, id);
    assert t[..|Placeholder|] == Placeholder;
    assert t[|Placeholder|..] == tail;
    NoBraceNoOccurrence(tail);
    ReplaceAllNoOccurrence(tail, Placeholder, id);
    assert "/accounts/" + t == "/accounts/" + Placeholder + "/" + resource;
    assert "/accounts/" + id + tail == "/accounts/" + id + "/" + resource;
  }

  /** Replacing the placeholder in a template's text gives the scope it denotes. */
  lemma FillText(t: ScopeTemplate, id: string)
    ensures ReplaceAll(TemplateText(t), Placeholder, id) == FillTemplate(t, id)
  {
    match t
    case OrgScope(path) =>
      NoBraceNoOccurrence(path);
      ReplaceAllNoOccurrence(path, Placeholder, id);
    case AccountScope(resource) =>
      AccountTemplate(resource, id);
  }

  /** Replacing the placeholder in each template of a table gives each scope it denotes. */
  lemma InstantiateTexts(templates: seq<ScopeTemplate>, id: string)
    ensures Instantiate(Texts(templates), id) == Filled(templates, id)
  {
    forall k | 0 <= k < |templates|
      ensures Instantiate(Texts(templates), id)[k] == Filled(templates, id)[k]
    {
      FillText(templates[k], id);
    }
  }

  /** Replacing in the joined table is joining the instantiated templates. */
  lemma {:induction false} ReplaceAllJoin(table: seq<string>, id: string)
    ensures ReplaceAll(JoinWith(table, " "), Placeholder, id) == JoinWith(Instantiate(table, id), " ")
    decreases |table|
  {
    if |table| > 1 {
      var rest := JoinWith(table[1..], " ");
      assert ' ' !in Placeholder;
      ReplaceAllConcat(table[0], " " + rest, Placeholder, id);
      ReplaceAllConcat(" ", rest, Placeholder, id);
      assert ReplaceAll(" ", Placeholder, id) == " ";
      assert table[0] + " " + rest == table[0] + (" " + rest);
      ReplaceAllJoin(table[1..], id);
      assert Instantiate(table, id)[1..] == Instantiate(table[1..], id);
    }
  }

  /** Joining parts none of which holds the placeholder with spaces gives a string
      without it. */
  lemma {:induction false} NoPlaceholderJoin(parts: seq<string>)
    requires forall k :: 0 <= k < |parts| ==> !Occurs(Placeholder, parts[k])
    ensures !Occurs(Placeholder, JoinWith(parts, " "))
    decreases |parts|
  {
    if |parts| > 1 {
      var rest := JoinWith(parts[1..], " ");
      NoPlaceholderJoin(parts[1..]);
      assert ' ' !in Placeholder;
      NoOccurrenceConcat(Placeholder, " ", rest);
      NoOccurrenceConcat(Placeholder, parts[0], " " + rest);
      assert parts[0] + " " + rest == parts[0] + (" " + rest);
    }
  }

  /** Splitting a join on a separator that occurs in no part gives back the parts. */
  lemma {:induction false} SplitJoin(parts: seq<string>, sep: char)
    requires |parts| >= 1
    requires forall k :: 0 <= k < |parts| ==> sep !in parts[k]
    ensures Split(JoinWith(parts, [sep]), sep) == parts
    decreases |parts|
  {
    if |parts| == 1 {
      SplitNoSeparator(parts[0], sep);
    } else {
      SplitJoin(parts[1..], sep);
      SplitAtFirst(parts[0], JoinWith(parts[1..], [sep]), sep);
    }
  }

  lemma {:induction false} SplitNoSeparator(s: string, sep: char)
    requires sep !in s
    ensures Split(s, sep) == [s]
    decreases |s|
  {
    if s != [] {
      SplitNoSeparator(s[1..], sep);
      assert [s[0]] + s[1..] == s;
    }
  }

  lemma {:induction false} SplitAtFirst(a: string, b: string, sep: char)
    requires sep !in a
    ensures Split(a + [sep] + b, sep) == [a] + Split(b, sep)
    decreases |a|
  {
    var s := a + [sep] + b;
    if a == [] {
      assert s[1..] == b;
    } else {
      assert s[1..] == a[1..] + [sep] + b;
      SplitAtFirst(a[1..], b, sep);
      assert [a[0]] + a[1..] == a;
    }
  }

  // ---------------------------------------------------------------------------
  // Properties of getScopes

  /** `getScopes` joins, with single spaces, the scopes the chosen table denotes for the id. */
  lemma GetScopesJoin(accountID: string, getAllScopes: bool)
    ensures GetScopes(accountID, getAllScopes) == JoinWith(Filled(Templates(getAllScopes), accountID), " ")
  {
    ReplaceAllJoin(Table(getAllScopes), accountID);
    InstantiateTexts(Templates(getAllScopes), accountID);
  }

  /** For an id without spaces, splitting the result on spaces gives back the chosen
      table, in table order, with the placeholder replaced by the id: 5 scopes for the
      basic table and 14 for the full one. */
  lemma GetScopesSplit(accountID: string, getAllScopes: bool)
    requires ' ' !in accountID
    ensures Split(GetScopes(accountID, getAllScopes), ' ') == Filled(Templates(getAllScopes), accountID)
    ensures |Split(GetScopes(accountID, getAllScopes), ' ')| == if getAllScopes then 14 else 5
  {
    var scopes := Filled(Templates(getAllScopes), accountID);
    GetScopesJoin(accountID, getAllScopes);
    forall k | 0 <= k < |scopes| ensures ' ' !in scopes[k] {
      match Templates(getAllScopes)[k]
      case OrgScope(_) =>
      case AccountScope(resource) =>
        assert scopes[k] == "/accounts/" + accountID + "/" + resource;
    }
    SplitJoin(scopes, ' ');
  }

  /** Every basic template is also a full template. */
  lemma BasicInFull()
    ensures forall k :: 0 <= k < |BasicTemplates| ==> BasicTemplates[k] in FullTemplates
  {
    assert BasicTemplates[0] == FullTemplates[0];
    assert BasicTemplates[1] == FullTemplates[1];
    assert BasicTemplates[2] == FullTemplates[10];
    assert BasicTemplates[3] == FullTemplates[2];
    assert BasicTemplates[4] == FullTemplates[3];
  }

  /** Every scope one table denotes is denoted by another table holding all its templates. */
  lemma FilledIncluded(templates: seq<ScopeTemplate>, others: seq<ScopeTemplate>, accountID: string)
    requires forall k :: 0 <= k < |templates| ==> templates[k] in others
    ensures forall s :: s in Filled(templates, accountID) ==> s in Filled(others, accountID)
  {
    forall s | s in Filled(templates, accountID) ensures s in Filled(others, accountID) {
      var k :| 0 <= k < |templates| && Filled(templates, accountID)[k] == s;
      var j :| 0 <= j < |others| && others[j] == templates[k];
      assert Filled(others, accountID)[j] == s;
    }
  }

  /** Every basic scope is also requested when all scopes are. */
  lemma BasicScopesInFull(accountID: string)
    requires ' ' !in accountID
    ensures forall s :: s in Split(GetScopes(accountID, false), ' ') ==> s in Split(GetScopes(accountID, true), ' ')
  {
    GetScopesSplit(accountID, false);
    GetScopesSplit(accountID, true);
    BasicInFull();
    FilledIncluded(BasicTemplates, FullTemplates, accountID);
  }

  /** A scope denoted for an id free of the placeholder is free of it too. */
  lemma FilledNoPlaceholder(t: ScopeTemplate, accountID: string)
    requires !Occurs(Placeholder, accountID)
    ensures !Occurs(Placeholder, FillTemplate(t, accountID))
  {
    match t
    case OrgScope(path) =>
      NoBraceNoOccurrence(path);
    case AccountScope(resource) =>
      var tail := "/" + resource;
      NoBraceNoOccurrence(tail);
      NoBraceNoOccurrence("/accounts/");
      assert '/' !in Placeholder;
      NoOccurrenceConcat(Placeholder, accountID, tail);
      NoOccurrenceConcat(Placeholder, "/accounts/", accountID + tail);
      assert "/accounts/" + (accountID + tail) == "/accounts/" + accountID + "/" + resource;
  }

  /** Unless the id itself holds `{accountID}`, no placeholder is left in the result. */
  lemma GetScopesNoPlaceholder(accountID: string, getAllScopes: bool)
    requires !Occurs(Placeholder, accountID)
    ensures !Occurs(Placeholder, GetScopes(accountID, getAllScopes))
  {
    var scopes := Filled(Templates(getAllScopes), accountID);
    GetScopesJoin(accountID, getAllScopes);
    forall k | 0 <= k < |scopes| ensures !Occurs(Placeholder, scopes[k]) {
      FilledNoPlaceholder(Templates(getAllScopes)[k], accountID);
    }
    NoPlaceholderJoin(scopes);
  }

  lemma {:induction false} OccursAppendLeft(p: string, a: string, b: string)
    requires Occurs(p, b)
    ensures Occurs(p, a + b)
    decreases |a|
  {
    if a == [] {
      assert a + b == b;
    } else {
      assert (a + b)[1..] == a[1..] + b;
      OccursAppendLeft(p, a[1..], b);
    }
  }

  lemma {:induction false} OccursAppendRight(p: string, a: string, b: string)
    requires Occurs(p, a)
    ensures Occurs(p, a + b)
    decreases |a|
  {
    assert (a + b)[..|p|] == a[..|p|];
    if a[..|p|] != p {
      assert (a + b)[1..] == a[1..] + b;
      OccursAppendRight(p, a[1..], b);
    }
  }

  /** A piece of one part is a piece of the joined string. */
  lemma {:induction false} OccursInJoin(p: string, parts: seq<string>, k: nat)
    requires k < |parts| && Occurs(p, parts[k])
    ensures Occurs(p, JoinWith(parts, " "))
    decreases k
  {
    if |parts| > 1 {
      var rest := JoinWith(parts[1..], " ");
      if k == 0 {
        OccursAppendRight(p, parts[0], " " + rest);
        assert parts[0] + (" " + rest) == JoinWith(parts, " ");
      } else {
        assert parts[1..][k - 1] == parts[k];
        OccursInJoin(p, parts[1..], k - 1);
        OccursAppendLeft(p, parts[0] + " ", rest);
      }
    }
  }

  /** The placeholder is replaced only by the id: an id that is itself `{accountID}`
      leaves it in the result, in the profile scope of either table. */
  lemma PlaceholderSurvives(getAllScopes: bool)
    ensures Occurs(Placeholder, GetScopes(Placeholder, getAllScopes))
  {
    GetScopesJoin(Placeholder, getAllScopes);
    var scopes := Filled(Templates(getAllScopes), Placeholder);
    var k := if getAllScopes then 10 else 2;
    assert scopes[k] == "/accounts/" + (Placeholder + "/profile.read");
    assert Placeholder[..|Placeholder|] == Placeholder;
    OccursAppendRight(Placeholder, Placeholder, "/profile.read");
    OccursAppendLeft(Placeholder, "/accounts/", Placeholder + "/profile.read");
    OccursInJoin(Placeholder, scopes, k);
  }

  /** The profile scope for an empty id has an empty path segment. */
  lemma EmptyProfileScope()
    ensures FillTemplate(ProfileRead, "") == "/accounts//profile.read"
  {
  }

  /** The bootstrap token asks for the basic scopes with an empty id, so its
      account-level scope has an empty path segment. */
  lemma BootstrapScopes()
    ensures !Occurs(Placeholder, GetScopes("", false))
    ensures "/accounts//profile.read" in Split(GetScopes("", false), ' ')
  {
    GetScopesNoPlaceholder("", false);
    GetScopesSplit("", false);
    EmptyProfileScope();
    assert Filled(BasicTemplates, "")[2] == FillTemplate(ProfileRead, "");
  }
}
