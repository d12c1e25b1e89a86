/**
 * `EmailParser`: the header helpers. Each regular expression of the source is
 * written as the leftmost-match search the `re` module performs, stated first
 * as a predicate on positions and then computed by a scan.
 */
module EmailParser {
  import opened Wrappers
  import opened Text

  // ------------------------------------------------------------- `<(.+?)>`

  /**
   * `<(.+?)>` matches from `i` to `j`: a `<`, at least one character other than
   * a newline, and the first `>` after that one character.
   */
  predicate IsAngleMatch(s: string, i: nat, j: nat) {
    && i + 2 <= j < |s| && s[i] == '<' && s[j] == '>'
    && (forall k :: i < k < j ==> s[k] != '\n')
    && (forall k :: i + 2 <= k < j ==> s[k] != '>')
  }

  /** The lazy group has one end for a given start. */
  lemma AngleMatchUnique(s: string, i: nat, j1: nat, j2: nat)
    requires IsAngleMatch(s, i, j1) && IsAngleMatch(s, i, j2)
    ensures j1 == j2
  {
  }

  /** Scans for the closing `>` of a match starting at `i`, having passed `k`. */
  function AngleClose(s: string, i: nat, k: nat): (r: Option<nat>)
    requires i + 1 <= k && i < |s| && s[i] == '<'
    requires forall m :: i < m < k && m < |s| ==> s[m] != '\n'
    requires forall m :: i + 2 <= m < k && m < |s| ==> s[m] != '>'
    ensures r.Some? ==> IsAngleMatch(s, i, r.value)
    ensures r.None? ==> forall j: nat :: !IsAngleMatch(s, i, j)
    decreases |s| - k
  {
    if k >= |s| then None
    else if s[k] == '\n' then None
    else if k >= i + 2 && s[k] == '>' then Some(k)
    else AngleClose(s, i, k + 1)
  }

  /** The leftmost match at or after `from`, as `re.search` finds it. */
  function FirstAngleMatch(s: string, from: nat): (r: Option<(nat, nat)>)
    ensures r.Some? ==> from <= r.value.0 && IsAngleMatch(s, r.value.0, r.value.1)
    ensures r.Some? ==> forall a: nat, b: nat :: from <= a < r.value.0 ==> !IsAngleMatch(s, a, b)
    ensures r.None? ==> forall a: nat, b: nat :: from <= a ==> !IsAngleMatch(s, a, b)
    decreases |s| - from
  {
    if from >= |s| then None
    else if s[from] == '<' && AngleClose(s, from, from + 1).Some? then Some((from, AngleClose(s, from, from + 1).value))
    else FirstAngleMatch(s, from + 1)
  }

  /** A match no other match starts before. */
  ghost predicate IsLeftmostAngleMatch(s: string, i: nat, j: nat) {
    IsAngleMatch(s, i, j) && forall a: nat, b: nat :: a < i ==> !IsAngleMatch(s, a, b)
  }

  /** The leftmost match is the one the search finds. */
  lemma LeftmostAngleMatchFound(s: string, i: nat, j: nat)
    requires IsLeftmostAngleMatch(s, i, j)
    ensures FirstAngleMatch(s, 0) == Some((i, j))
  {
    var r := FirstAngleMatch(s, 0);
    assert r.Some?;
    var (i2, j2) := r.value;
    assert !IsAngleMatch(s, i, j) || !(i < i2);
    assert !IsAngleMatch(s, i2, j2) || !(i2 < i);
    AngleMatchUnique(s, i, j, j2);
  }

  /**
   * `extract_email_address`: the stripped content of the first `<...>`, or
   * the whole field stripped when there is none.
   */
  function ExtractEmailAddress(field: string): (r: string)
    ensures (forall a: nat, b: nat :: !IsAngleMatch(field, a, b)) ==> r == Strip(field)
  {
    match FirstAngleMatch(field, 0)
    case None => Strip(field)
    case Some((i, j)) => Strip(field[i + 1..j])
  }

  /** With a match, the result is the stripped content of the leftmost one. */
  lemma ExtractEmailAddressOfMatch(field: string, i: nat, j: nat)
    requires IsLeftmostAngleMatch(field, i, j)
    ensures ExtractEmailAddress(field) == Strip(field[i + 1..j])
    ensures '\n' !in ExtractEmailAddress(field)
  {
    LeftmostAngleMatchFound(field, i, j);
    var content := field[i + 1..j];
    assert '\n' !in content by {
      forall k | 0 <= k < |content| ensures content[k] != '\n' {
        assert content[k] == field[i + 1 + k];
      }
    }
    StripSubsequence(content);
  }

  /** `Name <address>` gives the address, stripped, when the name has no `<`. */
  lemma ExtractEmailAddressOfNamed(name: string, address: string)
    requires '<' !in name
    requires |address| >= 1 && '>' !in address && '\n' !in address
    ensures ExtractEmailAddress(name + "<" + address + ">") == Strip(address)
  {
    var f := name + "<" + address + ">";
    var i := |name|;
    var j := |name| + |address| + 1;
    assert f[i + 1..j] == address;
    assert IsAngleMatch(f, i, j) by {
      forall k | i < k < j ensures f[k] != '\n' && f[k] == address[k - i - 1] {
      }
    }
    forall a2: nat, b2: nat | a2 < i ensures !IsAngleMatch(f, a2, b2) {
      assert f[a2] == name[a2];
    }
    ExtractEmailAddressOfMatch(f, i, j);
  }

  /** A field without `<` is returned stripped. */
  lemma ExtractEmailAddressOfBare(field: string)
    requires '<' !in field
    ensures ExtractEmailAddress(field) == Strip(field)
  {
    forall a: nat, b: nat ensures !IsAngleMatch(field, a, b) {
      if a < |field| {
        assert field[a] in field;
      }
    }
  }

  // ---------------------------------------------------- `project\+([^@]+)@`

  const HINT_PREFIX := "project+"

  /** `project\+([^@]+)@` matches at `i`, its group running up to the `@` at `j`. */
  predicate IsHintMatch(s: string, i: nat, j: nat) {
    && OccursAt(s, HINT_PREFIX, i)
    && i + |HINT_PREFIX| < j < |s| && s[j] == '@'
    && (forall k :: i + |HINT_PREFIX| <= k < j ==> s[k] != '@')
  }

  lemma HintMatchUnique(s: string, i: nat, j1: nat, j2: nat)
    requires IsHintMatch(s, i, j1) && IsHintMatch(s, i, j2)
    ensures j1 == j2
  {
  }

  /** The leftmost match at or after `from`. */
  function FirstHintMatch(s: string, from: nat): (r: Option<(nat, nat)>)
    ensures r.Some? ==> from <= r.value.0 && IsHintMatch(s, r.value.0, r.value.1)
    ensures r.Some? ==> forall a: nat, b: nat :: from <= a < r.value.0 ==> !IsHintMatch(s, a, b)
    ensures r.None? ==> forall a: nat, b: nat :: from <= a ==> !IsHintMatch(s, a, b)
    decreases |s| - from
  {
    if from + |HINT_PREFIX| >= |s| then None
    else if OccursAt(s, HINT_PREFIX, from) && s[from + |HINT_PREFIX|] != '@' then
      match IndexOfFrom(s, '@', from + |HINT_PREFIX|)
      case Some(j) => Some((from, j))
      case None => None
    else FirstHintMatch(s, from + 1)
  }

  ghost predicate IsLeftmostHintMatch(s: string, i: nat, j: nat) {
    IsHintMatch(s, i, j) && forall a: nat, b: nat :: a < i ==> !IsHintMatch(s, a, b)
  }

  lemma LeftmostHintMatchFound(s: string, i: nat, j: nat)
    requires IsLeftmostHintMatch(s, i, j)
    ensures FirstHintMatch(s, 0) == Some((i, j))
  {
    var r := FirstHintMatch(s, 0);
    assert r.Some?;
    var (i2, j2) := r.value;
    assert !IsHintMatch(s, i, j) || !(i < i2);
    assert !IsHintMatch(s, i2, j2) || !(i2 < i);
    HintMatchUnique(s, i, j, j2);
  }

  /**
   * `extract_project_id_from_recipient`: the stripped group of the leftmost
   * match, which has no `@`; `None` when the address has no match.
   */
  function ExtractProjectIdFromRecipient(to: string): (r: Option<string>)
    ensures r.None? <==> forall a: nat, b: nat :: !IsHintMatch(to, a, b)
    ensures r.Some? ==> '@' !in r.value
  {
    match FirstHintMatch(to, 0)
    case None => None
    case Some((i, j)) =>
      var group := to[i + |HINT_PREFIX|..j];
      assert '@' !in group by {
        forall k | 0 <= k < |group| ensures group[k] != '@' {
          assert group[k] == to[i + |HINT_PREFIX| + k];
        }
      }
      StripSubsequence(group);
      Some(Strip(group))
  }

  /** With a match, the hint is the stripped text between `project+` and the `@` of the leftmost one. */
  lemma ExtractProjectIdOfMatch(to: string, i: nat, j: nat)
    requires IsLeftmostHintMatch(to, i, j)
    ensures ExtractProjectIdFromRecipient(to) == Some(Strip(to[i + |HINT_PREFIX|..j]))
  {
    LeftmostHintMatchFound(to, i, j);
  }

  /** Stripping keeps a contiguous piece, so it adds no character. */
  lemma StripSubsequence(s: string)
    ensures forall c :: c in Strip(s) ==> c in s
  {
    StripKeepsInterior(s);
  }

  /** `project+ID@domain` with a plain id gives that id back. */
  lemma ExtractProjectIdOfPlusAddress(id: string, domain: string)
    requires |id| >= 1 && '@' !in id && !IsSpace(id[0]) && !IsSpace(id[|id| - 1])
    ensures ExtractProjectIdFromRecipient(HINT_PREFIX + id + "@" + domain) == Some(id)
  {
    var to := HINT_PREFIX + id + "@" + domain;
    var j := |HINT_PREFIX| + |id|;
    assert to[|HINT_PREFIX|..j] == id;
    assert OccursAt(to, HINT_PREFIX, 0);
    assert IsHintMatch(to, 0, j) by {
      forall k | |HINT_PREFIX| <= k < j ensures to[k] != '@' {
        assert to[k] == id[k - |HINT_PREFIX|];
      }
    }
    ExtractProjectIdOfMatch(to, 0, j);
    StripNoSpaceIdentity(id);
  }

  // ----------------------------------------------------------- metadata

  /** The headers `extract_metadata` reads, and the two fields it derives. */
  datatype Metadata = Metadata(
    from: string, to: string, cc: string, subject: string, date: string,
    messageId: string, inReplyTo: string, references: string,
    senderEmail: string, projectIdHint: Option<string>)

  /** The header fields of a message, in order, as name and value (a name may repeat). */
  type Headers = seq<(string, string)>

  /** Where the first field called `name` is, the name compared without regard to case. */
  function FindHeader(headers: Headers, name: string): (r: Option<nat>)
    ensures r.Some? ==> r.value < |headers| && Lower(headers[r.value].0) == Lower(name)
    ensures r.Some? ==> forall k :: 0 <= k < r.value ==> Lower(headers[k].0) != Lower(name)
    ensures r.None? ==> forall k :: 0 <= k < |headers| ==> Lower(headers[k].0) != Lower(name)
  {
    if |headers| == 0 then None
    else if Lower(headers[0].0) == Lower(name) then Some(0)
    else
      match FindHeader(headers[1..], name)
      case Some(i) => Some(i + 1)
      case None => None
  }

  /** `msg.get(name, '')`: the value of the first field of that name, or the empty string. */
  function Header(headers: Headers, name: string): (v: string)
    ensures (forall k :: 0 <= k < |headers| ==> Lower(headers[k].0) != Lower(name)) ==> v == ""
  {
    match FindHeader(headers, name)
    case Some(i) => headers[i].1
    case None => ""
  }

  /** Any capitalisation of a name finds the same field. */
  lemma HeaderIgnoresCase(headers: Headers, name: string)
    ensures Header(headers, Lower(name)) == Header(headers, name)
  {
    LowerIdempotent(name);
    assert forall k :: 0 <= k < |headers| ==> (Lower(headers[k].0) == Lower(Lower(name)) <==> Lower(headers[k].0) == Lower(name));
    FindHeaderSameKey(headers, Lower(name), name);
  }

  lemma {:induction false} FindHeaderSameKey(headers: Headers, a: string, b: string)
    requires Lower(a) == Lower(b)
    ensures FindHeader(headers, a) == FindHeader(headers, b)
  {
    if |headers| > 0 {
      FindHeaderSameKey(headers[1..], a, b);
    }
  }

  /** The first of two fields with the same name wins, whatever case either is written in. */
  lemma FirstFieldWins(before: Headers, name: string, v: string, after: Headers, wanted: string)
    requires Lower(name) == Lower(wanted)
    requires forall k :: 0 <= k < |before| ==> Lower(before[k].0) != Lower(wanted)
    ensures Header(before + [(name, v)] + after, wanted) == v
  {
    var hs := before + [(name, v)] + after;
    var r := FindHeader(hs, wanted);
    assert hs[|before|] == (name, v);
    assert forall k :: 0 <= k < |before| ==> hs[k] == before[k];
    assert r == Some(|before|);
  }

  /** `extract_metadata`, a missing header read as the empty string. */
  function ExtractMetadata(headers: Headers): (m: Metadata)
    ensures m.from == Header(headers, "From") && m.to == Header(headers, "To")
    ensures m.senderEmail == ExtractEmailAddress(m.from)
    ensures m.projectIdHint == ExtractProjectIdFromRecipient(m.to)
  {
    var from := Header(headers, "From");
    var to := Header(headers, "To");
    Metadata(from, to, Header(headers, "Cc"), Header(headers, "Subject"), Header(headers, "Date"),
             Header(headers, "Message-ID"), Header(headers, "In-Reply-To"), Header(headers, "References"),
             ExtractEmailAddress(from), ExtractProjectIdFromRecipient(to))
  }

  /** Without a `From` field, in any capitalisation, both the sender and the display field are empty. */
  lemma MissingFromGivesEmptySender(headers: Headers)
    requires forall k :: 0 <= k < |headers| ==> Lower(headers[k].0) != "from"
    ensures ExtractMetadata(headers).from == "" && ExtractMetadata(headers).senderEmail == ""
  {
    assert Lower("From") == "from";
    ExtractEmailAddressOfBare("");
  }

  /** Without a `To` field, in any capitalisation, there is no project hint. */
  lemma MissingToGivesNoHint(headers: Headers)
    requires forall k :: 0 <= k < |headers| ==> Lower(headers[k].0) != "to"
    ensures ExtractMetadata(headers).projectIdHint == None
  {
    assert Lower("To") == "to";
  }

  /** A `from:` field written in lower case is still the sender. */
  lemma LowerCaseFromIsRead(address: string)
    ensures ExtractMetadata([("from", address)]).from == address
  {
    assert Lower("from") == Lower("From");
    FirstFieldWins([], "from", address, [], "From");
    assert [] + [("from", address)] + [] == [("from", address)];
  }

  // ---------------------------------------------------------- sender allowlist

  /** The sender's domain is the allowed one or a subdomain of it. */
  predicate DomainMatches(domain: string, allowed: string) {
    domain == allowed || EndsWith(domain, "." + allowed)
  }

  /** The text after the sender's last `@`, lower-cased. */
  function SenderDomain(sender: string): string {
    Lower(AfterLast(sender, '@'))
  }

  /** Some entry of the list, stripped and lower-cased, matches the domain. */
  predicate SomeEntryMatches(domain: string, allowed: seq<string>) {
    exists i :: 0 <= i < |allowed| && DomainMatches(domain, Lower(Strip(allowed[i])))
  }

  /** Who `validate_sender` lets through: everyone when the list is empty, else a sender whose domain matches an entry. */
  predicate SenderAllowed(sender: string, allowed: seq<string>) {
    |allowed| == 0 || SomeEntryMatches(SenderDomain(sender), allowed)
  }

  /** `validate_sender`: the loop over the entries returns at the first one that matches. */
  method ValidateSender(sender: string, allowed: seq<string>) returns (r: bool)
    ensures r == SenderAllowed(sender, allowed)
  {
    if |allowed| == 0 {
      return true;
    }
    var domain := SenderDomain(sender);
    var i := 0;
    while i < |allowed|
      invariant 0 <= i <= |allowed|
      invariant forall k :: 0 <= k < i ==> !DomainMatches(domain, Lower(Strip(allowed[k])))
    {
      var entry := Lower(Strip(allowed[i]));
      if domain == entry || EndsWith(domain, "." + entry) {
        return true;
      }
      i := i + 1;
    }
    return false;
  }

  /** Lower-casing and taking the part after the last `@` commute. */
  lemma {:induction false} AfterLastLower(s: string)
    ensures AfterLast(Lower(s), '@') == Lower(AfterLast(s, '@'))
  {
    if |s| > 0 {
      var n := |s|;
      var init, c := s[..n - 1], s[n - 1];
      var ls := Lower(s);
      assert ls[..n - 1] == Lower(init);
      assert ls[n - 1] == LowerChar(c);
      assert LowerChar(c) == '@' <==> c == '@';
      AfterLastLower(init);
      if c == '@' {
        assert AfterLast(ls, '@') == [];
        assert AfterLast(s, '@') == [];
      } else {
        assert AfterLast(ls, '@') == AfterLast(Lower(init), '@') + [LowerChar(c)];
        assert AfterLast(s, '@') == AfterLast(init, '@') + [c];
        LowerAppend(AfterLast(init, '@'), [c]);
        assert Lower([c]) == [LowerChar(c)];
      }
    }
  }

  /** The sender's address is compared without regard to case. */
  lemma ValidateSenderIgnoresCase(sender: string, allowed: seq<string>)
    ensures SenderAllowed(Lower(sender), allowed) == SenderAllowed(sender, allowed)
  {
    AfterLastLower(sender);
    LowerIdempotent(AfterLast(sender, '@'));
  }

  /** The domain of `user@tail` is `tail` when `tail` has no `@` and no capitals. */
  lemma SenderDomainOf(user: string, tail: string)
    requires '@' !in tail && NoCapitals(tail)
    ensures SenderDomain(user + "@" + tail) == tail
  {
    assert user + "@" + tail == (user + "@") + tail;
    AfterLastOfSuffix(user + "@", tail);
    LowerOfNoCapitals(tail);
  }

  /** One matching entry is enough. */
  lemma AcceptedByEntry(sender: string, allowed: seq<string>, i: nat)
    requires i < |allowed| && DomainMatches(SenderDomain(sender), Lower(Strip(allowed[i])))
    ensures SenderAllowed(sender, allowed)
  {
  }

  /** A subdomain of an allowed domain is accepted. */
  lemma SubdomainAccepted(user: string, sub: string, domain: string)
    requires NoCapitals(sub) && NoCapitals(domain) && '@' !in sub && '@' !in domain
    requires Strip(domain) == domain
    ensures SenderAllowed(user + "@" + sub + "." + domain, [domain])
  {
    var tail := sub + ("." + domain);
    assert user + "@" + sub + "." + domain == user + "@" + tail;
    assert '@' !in tail && NoCapitals(tail) by {
      forall k | 0 <= k < |tail| ensures tail[k] != '@' && !IsAsciiUpper(tail[k]) {
        if k < |sub| { assert tail[k] == sub[k]; }
        else if k > |sub| { assert tail[k] == domain[k - |sub| - 1]; }
      }
    }
    SenderDomainOf(user, tail);
    LowerOfNoCapitals(domain);
    assert EndsWith(tail, "." + domain);
    AcceptedByEntry(user + "@" + tail, [domain], 0);
  }

  /** The part after the last `@` of `p + t` is `t` when `p` ends in `@` and `t` has none. */
  lemma {:induction false} AfterLastOfSuffix(p: string, t: string)
    requires |p| > 0 && p[|p| - 1] == '@' && '@' !in t
    ensures AfterLast(p + t, '@') == t
    decreases |t|
  {
    if |t| == 0 {
      assert p + t == p;
    } else {
      var init := t[..|t| - 1];
      assert (p + t)[..|p + t| - 1] == p + init;
      assert '@' !in init by {
        forall k | 0 <= k < |init| ensures init[k] != '@' {
          assert init[k] == t[k];
        }
      }
      AfterLastOfSuffix(p, init);
      assert init + [t[|t| - 1]] == t;
    }
  }

  /**
   * A longer domain that ends with the allowed name matches it exactly when a
   * `.` stands before the name: `mail.example.com` does, a look-alike such as
   * `notexample.com` does not.
   */
  lemma LookalikeRejected(prefix: string, allowed: string)
    requires |prefix| > 0
    ensures DomainMatches(prefix + allowed, allowed) <==> prefix[|prefix| - 1] == '.'
  {
    var d := prefix + allowed;
    var n := |d| - |allowed| - 1;
    assert d != allowed;
    assert d[n] == prefix[|prefix| - 1];
    if prefix[|prefix| - 1] == '.' {
      assert d[n..] == "." + allowed by {
        forall k | 0 <= k < |d| - n ensures d[n..][k] == ("." + allowed)[k] {
          if k > 0 { assert d[n + k] == allowed[k - 1]; }
        }
      }
    }
  }

  /** Pieces without commas. */
  predicate CommaFree(parts: seq<string>) {
    forall k :: 0 <= k < |parts| ==> ',' !in parts[k]
  }

  lemma CommaFreeTail(a: seq<string>)
    requires CommaFree(a) && |a| > 0
    ensures CommaFree(a[1..])
  {
    forall k | 0 <= k < |a| - 1 ensures ',' !in a[1..][k] {
      assert a[1..][k] == a[k + 1];
    }
  }

  /** What the first piece contributes: its stripped form, unless that is empty. */
  function Kept(piece: string): seq<string> {
    if Strip(piece) != "" then [Strip(piece)] else []
  }

  /** `[d.strip() for d in config.split(',') if d.strip()]`. */
  function ParseAllowedDomains(config: string): (r: seq<string>)
    ensures CleanDomains(r)
    ensures forall d :: d in r <==> d != "" && StripsTo(Split(config, ','), d)
  {
    KeepNonEmptyMembers(Split(config, ','));
    KeepNonEmptyClean(Split(config, ','));
    KeepNonEmpty(Split(config, ','))
  }

  /** Domains that are non-empty, hold no comma and have no surrounding whitespace. */
  predicate CleanDomains(ds: seq<string>) {
    forall k :: 0 <= k < |ds| ==> ds[k] != "" && ',' !in ds[k] && Strip(ds[k]) == ds[k]
  }

  /** Some piece strips to `d`. */
  predicate StripsTo(parts: seq<string>, d: string) {
    exists k :: 0 <= k < |parts| && Strip(parts[k]) == d
  }

  /** The stripped pieces, those left empty dropped, in order. */
  function KeepNonEmpty(parts: seq<string>): (r: seq<string>)
    ensures |r| <= |parts|
  {
    if |parts| == 0 then [] else Kept(parts[0]) + KeepNonEmpty(parts[1..])
  }

  lemma KeptIsClean(piece: string)
    requires ',' !in piece
    ensures CleanDomains(Kept(piece))
  {
    var d := Strip(piece);
    StripSubsequence(piece);
    StripNoSpaceIdentity(d);
  }

  lemma CleanDomainsConcat(a: seq<string>, b: seq<string>)
    requires CleanDomains(a) && CleanDomains(b)
    ensures CleanDomains(a + b)
  {
    forall k | 0 <= k < |a + b|
      ensures (a + b)[k] != "" && ',' !in (a + b)[k] && Strip((a + b)[k]) == (a + b)[k]
    {
      if k >= |a| { assert (a + b)[k] == b[k - |a|]; } else { assert (a + b)[k] == a[k]; }
    }
  }

  /** Every kept domain is non-empty, comma-free and already stripped. */
  lemma {:induction false} KeepNonEmptyClean(parts: seq<string>)
    requires CommaFree(parts)
    ensures CleanDomains(KeepNonEmpty(parts))
  {
    if |parts| > 0 {
      CommaFreeTail(parts);
      KeepNonEmptyClean(parts[1..]);
      KeptIsClean(parts[0]);
      CleanDomainsConcat(Kept(parts[0]), KeepNonEmpty(parts[1..]));
    }
  }

  /** A domain is kept exactly when it is what some piece strips to, and is not empty. */
  lemma {:induction false} KeepNonEmptyMembers(parts: seq<string>)
    ensures forall d :: d in KeepNonEmpty(parts) <==> d != "" && StripsTo(parts, d)
  {
    if |parts| > 0 {
      var tail := parts[1..];
      assert forall k :: 0 <= k < |tail| ==> tail[k] == parts[k + 1];
      KeepNonEmptyMembers(tail);
      var d0 := Strip(parts[0]);
      assert KeepNonEmpty(parts) == (if d0 != "" then [d0] else []) + KeepNonEmpty(tail);
      forall d ensures StripsTo(parts, d) <==> Strip(parts[0]) == d || StripsTo(tail, d) {
        if StripsTo(parts, d) {
          var k :| 0 <= k < |parts| && Strip(parts[k]) == d;
          if k > 0 { assert tail[k - 1] == parts[k]; }
        }
        if StripsTo(tail, d) {
          var k :| 0 <= k < |tail| && Strip(tail[k]) == d;
          assert parts[k + 1] == tail[k];
        }
      }
    }
  }

  /** Filtering two runs of pieces one after the other keeps their order. */
  lemma {:induction false} KeepNonEmptyConcat(a: seq<string>, b: seq<string>)
    ensures KeepNonEmpty(a + b) == KeepNonEmpty(a) + KeepNonEmpty(b)
  {
    if |a| == 0 {
      assert a + b == b;
    } else {
      assert (a + b)[1..] == a[1..] + b;
      KeepNonEmptyConcat(a[1..], b);
    }
  }

  /** Pieces already stripped and non-empty are all kept, as they are and in order. */
  lemma {:induction false} KeepNonEmptyOfClean(ds: seq<string>)
    requires CleanDomains(ds)
    ensures KeepNonEmpty(ds) == ds
  {
    if |ds| > 0 {
      var tail := ds[1..];
      assert CleanDomains(tail) by {
        forall k | 0 <= k < |tail| ensures tail[k] != "" && ',' !in tail[k] && Strip(tail[k]) == tail[k] {
          assert tail[k] == ds[k + 1];
        }
      }
      KeepNonEmptyOfClean(tail);
      assert KeepNonEmpty(ds) == [ds[0]] + KeepNonEmpty(tail);
      assert ds == [ds[0]] + tail;
    }
  }

  /** A list of clean domains written with commas between them is read back as that list. */
  lemma AllowedDomainsRoundTrip(ds: seq<string>)
    requires CleanDomains(ds)
    ensures ParseAllowedDomains(Join(ds, ',')) == ds
  {
    if |ds| == 0 {
      assert Join(ds, ',') == "";
      assert FindFrom("", [','], 0) == None;
      assert Split("", ',') == [""];
      assert Strip("") == "";
      assert KeepNonEmpty([""]) == [] + KeepNonEmpty([]);
    } else {
      SplitJoin(ds, ',');
      KeepNonEmptyOfClean(ds);
    }
  }

  // --------------------------------------------------------------- auto-replies

  const AUTO_REPLY_HEADERS := ["X-Autorespond", "X-Autoreply", "Auto-Submitted", "X-Auto-Response-Suppress"]
  const AUTO_REPLY_PHRASES := ["out of office", "automatic reply", "auto reply", "away from", "vacation"]

  /** What `is_auto_reply` detects: one of the four headers present and non-empty, or one of the five phrases in the lower-cased subject. */
  predicate AutoReply(headers: Headers) {
    || (exists h :: h in AUTO_REPLY_HEADERS && Header(headers, h) != "")
    || (exists p :: p in AUTO_REPLY_PHRASES && Contains(Lower(Header(headers, "Subject")), p))
  }

  /** `is_auto_reply`: the header loop, then the subject loop, each returning at its first hit. */
  method IsAutoReply(headers: Headers) returns (r: bool)
    ensures r == AutoReply(headers)
  {
    var i := 0;
    while i < |AUTO_REPLY_HEADERS|
      invariant 0 <= i <= |AUTO_REPLY_HEADERS|
      invariant forall k :: 0 <= k < i ==> Header(headers, AUTO_REPLY_HEADERS[k]) == ""
    {
      if Header(headers, AUTO_REPLY_HEADERS[i]) != "" {
        return true;
      }
      i := i + 1;
    }
    var subject := Lower(Header(headers, "Subject"));
    var j := 0;
    while j < |AUTO_REPLY_PHRASES|
      invariant 0 <= j <= |AUTO_REPLY_PHRASES|
      invariant forall k :: 0 <= k < j ==> !Contains(subject, AUTO_REPLY_PHRASES[k])
    {
      if Contains(subject, AUTO_REPLY_PHRASES[j]) {
        return true;
      }
      j := j + 1;
    }
    return false;
  }

  /** An `auto-submitted` field written in lower case marks an auto-reply. */
  lemma LowerCaseAutoSubmitted(value: string)
    requires value != ""
    ensures AutoReply([("auto-submitted", value)])
  {
    assert Lower("auto-submitted") == Lower("Auto-Submitted");
    FirstFieldWins([], "auto-submitted", value, [], "Auto-Submitted");
    assert [] + [("auto-submitted", value)] + [] == [("auto-submitted", value)];
    assert AUTO_REPLY_HEADERS[2] == "Auto-Submitted";
  }

  /** A subject that mentions being out of office, in any capitalisation, marks an auto-reply. */
  lemma OutOfOfficeSubject(headers: Headers, before: string, after: string)
    requires Header(headers, "Subject") == before + "Out of Office" + after
    ensures AutoReply(headers)
  {
    LowerAppend(before + "Out of Office", after);
    LowerAppend(before, "Out of Office");
    assert Lower("Out of Office") == "out of office";
    assert Contains("out of office", "out of office") by {
      assert OccursAt("out of office", "out of office", 0);
    }
    ContainsInWhole(Lower(before), "out of office", Lower(after), "out of office");
  }

  /** Ordinary mail, with none of the headers and an ordinary subject, is not an auto-reply. */
  lemma PlainMailIsNotAutoReply()
    ensures !AutoReply([("Subject", "Estimate")])
  {
    var hs := [("Subject", "Estimate")];
    assert Header(hs, "Subject") == "Estimate";
    forall h | h in AUTO_REPLY_HEADERS ensures Header(hs, h) == "" {
      assert Lower(h) != Lower("Subject") by {
        assert Lower(h)[0] != 's' || |h| != 7;
      }
    }
    var s := Lower("Estimate");
    assert s == "estimate";
    forall p | p in AUTO_REPLY_PHRASES ensures !Contains(s, p) {
      assert |p| > |s| || p == "vacation";
      if p == "vacation" {
        forall i | 0 <= i <= |s| - |p| ensures !OccursAt(s, p, i) {
          assert s[i] != 'v';
        }
      }
    }
  }

  // -------------------------------------------------------------- HTML to text

  /** The end of a `<open[^>]*>.*?close` match at `i` (dot matching newlines), if one starts there. */
  function BlockMatchEnd(s: string, open: string, close: string, i: nat): (r: Option<nat>)
    ensures r.Some? ==> i < r.value <= |s| && OccursAt(s, open, i)
  {
    if !OccursAt(s, open, i) || |open| == 0 then None
    else match IndexOfFrom(s, '>', i + |open|)
      case None => None
      case Some(g) =>
        match FindFrom(s, close, g + 1)
        case None => None
        case Some(c) => Some(c + |close|)
  }

  /** The end of a `<[^>]+>` match at `i`, if one starts there. */
  function TagMatchEnd(s: string, i: nat): (r: Option<nat>)
    ensures r.Some? ==> i + 3 <= r.value <= |s| && s[i] == '<' && s[r.value - 1] == '>'
    ensures r.Some? ==> forall k :: i < k < r.value - 1 ==> s[k] != '>'
  {
    if i + 1 >= |s| || s[i] != '<' || s[i + 1] == '>' then None
    else match IndexOfFrom(s, '>', i + 1)
      case None => None
      case Some(g) => Some(g + 1)
  }

  /** `re.sub(pattern, '', s)`: matches removed left to right, scanning resumed after each. */
  function RemoveBlocks(s: string, open: string, close: string, i: nat): (r: string)
    ensures |r| <= |s| - i || i > |s|
    decreases |s| - i
  {
    if i >= |s| then []
    else match BlockMatchEnd(s, open, close, i)
      case Some(e) => RemoveBlocks(s, open, close, e)
      case None => [s[i]] + RemoveBlocks(s, open, close, i + 1)
  }

  function RemoveTags(s: string, i: nat): (r: string)
    decreases |s| - i
  {
    if i >= |s| then []
    else match TagMatchEnd(s, i)
      case Some(e) => RemoveTags(s, e)
      case None => [s[i]] + RemoveTags(s, i + 1)
  }

  /** `re.sub(r'\s+', ' ', s)`: every run of whitespace becomes one space. */
  function CollapseSpace(s: string): (r: string)
    ensures NoDoubleSpace(r)
    ensures forall k :: 0 <= k < |r| && IsSpace(r[k]) ==> r[k] == ' '
    ensures |r| > 0 ==> |s| > 0 && (IsSpace(r[0]) <==> IsSpace(s[0]))
    decreases |s|
  {
    if |s| == 0 then []
    else if IsSpace(s[0]) then
      var rest := CollapseSpace(StripLeft(s));
      assert |rest| > 0 ==> !IsSpace(rest[0]);
      [' '] + rest
    else
      [s[0]] + CollapseSpace(s[1..])
  }

  /**
   * `_html_to_text`: style and script blocks and then tags removed, whitespace
   * runs collapsed, the ends stripped. The result has no whitespace at either
   * end, no two whitespace characters in a row, and no whitespace but spaces.
   */
  function HtmlToText(html: string): (r: string)
    ensures r == [] || (!IsSpace(r[0]) && !IsSpace(r[|r| - 1]))
    ensures NoDoubleSpace(r)
    ensures forall k :: 0 <= k < |r| && IsSpace(r[k]) ==> r[k] == ' '
  {
    var noStyle := RemoveBlocks(html, "<style", "</style>", 0);
    var noScript := RemoveBlocks(noStyle, "<script", "</script>", 0);
    var noTags := RemoveTags(noScript, 0);
    var collapsed := CollapseSpace(noTags);
    StripKeepsNoDoubleSpace(collapsed);
    StripKeepsInterior(collapsed);
    Strip(collapsed)
  }

  /** Where no match can start, the block removal keeps every character. */
  lemma {:induction false} RemoveBlocksSkip(s: string, open: string, close: string, i: nat, j: nat)
    requires |open| > 0 && open[0] == '<' && i <= j <= |s|
    requires forall k :: i <= k < j ==> s[k] != '<'
    ensures RemoveBlocks(s, open, close, i) == s[i..j] + RemoveBlocks(s, open, close, j)
    decreases j - i
  {
    if i < j {
      var rest := RemoveBlocks(s, open, close, j);
      calc {
        RemoveBlocks(s, open, close, i);
        == { RemoveBlocksStep(s, open, close, i); }
        [s[i]] + RemoveBlocks(s, open, close, i + 1);
        == { RemoveBlocksSkip(s, open, close, i + 1, j); }
        [s[i]] + (s[i + 1..j] + rest);
        == { assert s[i..j] == [s[i]] + s[i + 1..j]; }
        s[i..j] + rest;
      }
    }
  }

  /** A character that is not `<` cannot start a block, so it is kept. */
  lemma RemoveBlocksStep(s: string, open: string, close: string, i: nat)
    requires |open| > 0 && open[0] == '<' && i < |s| && s[i] != '<'
    ensures RemoveBlocks(s, open, close, i) == [s[i]] + RemoveBlocks(s, open, close, i + 1)
  {
    assert !OccursAt(s, open, i) by {
      if i + |open| <= |s| {
        assert s[i..i + |open|][0] == s[i] != open[0];
      }
    }
  }

  /** Where no tag can start, the tag removal keeps every character. */
  lemma {:induction false} RemoveTagsSkip(s: string, i: nat, j: nat)
    requires i <= j <= |s|
    requires forall k :: i <= k < j ==> s[k] != '<'
    ensures RemoveTags(s, i) == s[i..j] + RemoveTags(s, j)
    decreases j - i
  {
    if i < j {
      var rest := RemoveTags(s, j);
      RemoveTagsStep(s, i);
      RemoveTagsSkip(s, i + 1, j);
      assert RemoveTags(s, i) == [s[i]] + (s[i + 1..j] + rest);
      assert [s[i]] + (s[i + 1..j] + rest) == ([s[i]] + s[i + 1..j]) + rest;
      assert s[i..j] == [s[i]] + s[i + 1..j];
    }
  }

  /** A character that is not `<` is kept. */
  lemma RemoveTagsStep(s: string, i: nat)
    requires i < |s| && s[i] != '<'
    ensures RemoveTags(s, i) == [s[i]] + RemoveTags(s, i + 1)
  {
  }

  /** A tag `<x>` is dropped whole and the text on both sides of it is kept as it stands. */
  lemma TagDropped(a: string, x: string, b: string)
    requires '<' !in a && '<' !in b && |x| > 0 && '>' !in x
    ensures RemoveTags(a + "<" + x + ">" + b, 0) == a + b
  {
    var tag := "<" + x + ">";
    var s := a + "<" + x + ">" + b;
    var g := |a| + |tag|;
    assert s == a + tag + b;
    assert s[|a|..g] == tag;
    Untagged(s, 0, |a|, a);
    Untagged(s, g, |s|, b);
    TagAt(s, |a|, x);
    RemoveTagsSkip(s, 0, |a|);
    RemoveTagsSkip(s, g, |s|);
    assert s[0..|a|] == a && s[g..|s|] == b;
    assert RemoveTags(s, |s|) == [];
    assert RemoveTags(s, g) == b;
    assert RemoveTags(s, 0) == a + RemoveTags(s, |a|);
  }

  /** A stretch of `s` that equals a text without `<` holds no `<`. */
  lemma Untagged(s: string, i: nat, j: nat, t: string)
    requires i <= j <= |s| && s[i..j] == t && '<' !in t
    ensures forall k :: i <= k < j ==> s[k] != '<'
  {
    forall k | i <= k < j ensures s[k] != '<' {
      assert s[k] == t[k - i];
    }
  }

  /** At a `<x>` with no `>` inside, the tag match ends just after its `>`. */
  lemma TagAt(s: string, i: nat, x: string)
    requires |x| > 0 && '>' !in x && i + |x| + 2 <= |s| && s[i..i + |x| + 2] == "<" + x + ">"
    ensures TagMatchEnd(s, i) == Some(i + |x| + 2)
    ensures RemoveTags(s, i) == RemoveTags(s, i + |x| + 2)
  {
    var g := i + |x| + 1;
    assert s[i] == s[i..i + |x| + 2][0];
    assert s[i + 1] == s[i..i + |x| + 2][1] == x[0];
    assert s[g] == s[i..i + |x| + 2][|x| + 1];
    forall k | i + 1 <= k < g ensures s[k] != '>' {
      assert s[k] == s[i..i + |x| + 2][k - i] == x[k - i - 1];
    }
    assert IndexOfFrom(s, '>', i + 1) == Some(g);
  }

  /** Text without markup loses only whitespace: each run becomes one space and the ends are stripped. */
  lemma TaglessHtml(s: string)
    requires '<' !in s
    ensures HtmlToText(s) == Strip(CollapseSpace(s))
  {
    assert s[0..|s|] == s;
    RemoveBlocksSkip(s, "<style", "</style>", 0, |s|);
    var noStyle := RemoveBlocks(s, "<style", "</style>", 0);
    assert noStyle == s;
    RemoveBlocksSkip(s, "<script", "</script>", 0, |s|);
    var noScript := RemoveBlocks(noStyle, "<script", "</script>", 0);
    assert noScript == s;
    RemoveTagsSkip(s, 0, |s|);
    assert RemoveTags(noScript, 0) == s;
  }

  /** Single spaces only, none at either end. */
  predicate CleanText(s: string) {
    && NoDoubleSpace(s)
    && (forall k :: 0 <= k < |s| && IsSpace(s[k]) ==> s[k] == ' ')
    && (s == [] || (!IsSpace(s[0]) && !IsSpace(s[|s| - 1])))
  }

  /** Collapsing leaves text with single spaces as it is. */
  lemma {:induction false} CollapseSingleSpaces(s: string)
    requires NoDoubleSpace(s) && forall k :: 0 <= k < |s| && IsSpace(s[k]) ==> s[k] == ' '
    ensures CollapseSpace(s) == s
    decreases |s|
  {
    if |s| > 0 {
      NoDoubleSpaceInfix(s, 1, |s|);
      CollapseSingleSpaces(s[1..]);
      if IsSpace(s[0]) {
        assert |s| > 1 ==> !IsSpace(s[1]);
        assert StripLeft(s[1..]) == s[1..];
        assert StripLeft(s) == s[1..];
      }
      assert s == [s[0]] + s[1..];
    }
  }

  /** Plain text that is already clean comes back unchanged. */
  lemma CleanTextUnchanged(s: string)
    requires '<' !in s && CleanText(s)
    ensures HtmlToText(s) == s
  {
    TaglessHtml(s);
    CollapseSingleSpaces(s);
    assert StripLeft(s) == s;
    assert StripRight(s) == s;
    assert Strip(s) == s;
  }
}
