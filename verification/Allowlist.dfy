/** The sender allowlist, and the normaliser of the member ids in it. */
module Allowlist {
  import opened Wrappers
  import opened Text

  // ---- member ids --------------------------------------------------------------------------

  predicate Alnum(c: char) {
    'a' <= c <= 'z' || 'A' <= c <= 'Z' || '0' <= c <= '9'
  }

  function Clean(s: string): string {
    seq(|s|, i requires 0 <= i < |s| => if Alnum(s[i]) then Lower(s[i]) else '-')
  }

  function NonEmpty(parts: seq<string>): seq<string> {
    if parts == [] then []
    else (if parts[0] != "" then [parts[0]] else []) + NonEmpty(parts[1..])
  }

  // Runs of dashes become one dash; those at the ends go.
  function Squeeze(s: string): string {
    Join(NonEmpty(Split(s, '-')), '-')
  }

  function Squeezed(value: string): string {
    Squeeze(Clean(Trim(value)))
  }

  function Truncate(s: string): string {
    if |s| <= 64 then s else s[..64]
  }

  // None stands for the ValueError of an id without an alphanumeric character.
  function SafeMemberId(value: string): Option<string> {
    if Squeezed(value) == "" then None else Some(Truncate(Squeezed(value)))
  }

  // Lower-case letters and digits in groups separated by single dashes.
  predicate Slug(s: string) {
    && (s != "" ==> s[0] != '-' && s[|s| - 1] != '-')
    && NoDouble(s)
  }

  predicate NoDouble(s: string) {
    forall i :: 0 <= i < |s| - 1 ==> !(s[i] == '-' && s[i + 1] == '-')
  }

  predicate Plain(s: string) {
    forall c :: c in s ==> 'a' <= c <= 'z' || '0' <= c <= '9' || c == '-'
  }

  predicate WellFormedId(s: string) {
    s != "" && |s| <= 64 && s[0] != '-' && NoDouble(s) && Plain(s)
  }

  lemma {:induction false} JoinIsSlug(parts: seq<string>)
    requires forall p :: p in parts ==> p != "" && '-' !in p
    ensures Slug(Join(parts, '-'))
    ensures parts != [] ==> Join(parts, '-') != "" && Join(parts, '-')[0] == parts[0][0]
  {
    if parts == [] {
    } else if |parts| == 1 {
      assert parts[0] in parts;
    } else {
      var rest := Join(parts[1..], '-');
      assert forall p :: p in parts[1..] ==> p in parts;
      JoinIsSlug(parts[1..]);
      var s := parts[0] + ['-'] + rest;
      assert parts[0] in parts;
      forall i | 0 <= i < |s| - 1 ensures !(s[i] == '-' && s[i + 1] == '-') {
        if i < |parts[0]| {
          assert s[i] in parts[0];
        } else if i > |parts[0]| {
          assert s[i] == rest[i - |parts[0]| - 1] && s[i + 1] == rest[i - |parts[0]|];
        }
      }
    }
  }

  lemma {:induction false} NonEmptyHolds(parts: seq<string>)
    ensures forall p :: p in NonEmpty(parts) <==> p in parts && p != ""
  {
    if parts != [] {
      NonEmptyHolds(parts[1..]);
      assert parts == [parts[0]] + parts[1..];
    }
  }

  lemma {:induction false} JoinHolds(parts: seq<string>, c: char)
    requires c in Join(parts, '-')
    ensures c == '-' || exists p :: p in parts && c in p
  {
    if |parts| > 1 && c != '-' {
      if c in parts[0] {
        assert parts[0] in parts;
      } else {
        JoinHolds(parts[1..], c);
        var p :| p in parts[1..] && c in p;
        assert p in parts;
      }
    } else if |parts| == 1 {
      assert parts[0] in parts;
    }
  }

  lemma SqueezeIsSlug(s: string)
    ensures Slug(Squeeze(s))
    ensures Plain(s) ==> Plain(Squeeze(s))
  {
    var parts := NonEmpty(Split(s, '-'));
    PartsHaveNoSeparator(s, '-');
    NonEmptyHolds(Split(s, '-'));
    JoinIsSlug(parts);
    if Plain(s) {
      forall c | c in Squeeze(s) ensures 'a' <= c <= 'z' || '0' <= c <= '9' || c == '-' {
        JoinHolds(parts, c);
      }
    }
  }

  lemma CleanIsPlain(s: string)
    ensures Plain(Clean(s))
  {
  }

  // A slug is what squeezing leaves alone; one with a dash appended loses it.
  lemma {:induction false} SlugParts(s: string)
    requires NoDouble(s) && (s != "" ==> s[|s| - 1] != '-')
    ensures NonEmpty(Split(s, '-')) == if s == "" || s[0] == '-' then Split(s, '-')[1..] else Split(s, '-')
    decreases |s|
  {
    if s != "" {
      var tail := s[1..];
      var rest := Split(tail, '-');
      TailNoDouble(s);
      SlugParts(tail);
      SplitFirst(tail);
      if s[0] == '-' {
        assert ([""] + rest)[1..] == rest;
      } else {
        assert ([[s[0]] + rest[0]] + rest[1..])[1..] == rest[1..];
      }
    }
  }

  lemma TailNoDouble(s: string)
    requires s != "" && NoDouble(s)
    ensures NoDouble(s[1..])
  {
    var tail := s[1..];
    forall i | 0 <= i < |tail| - 1 ensures !(tail[i] == '-' && tail[i + 1] == '-') {
      assert tail[i] == s[i + 1] && tail[i + 1] == s[i + 2];
    }
  }

  lemma SplitFirst(s: string)
    ensures var parts := Split(s, '-');
      && (parts[0] == "" <==> s == "" || s[0] == '-')
      && NonEmpty(parts) == (if parts[0] == "" then [] else [parts[0]]) + NonEmpty(parts[1..])
  {
  }

  lemma SqueezeSlug(s: string)
    requires Slug(s)
    ensures Squeeze(s) == s
  {
    SlugParts(s);
    JoinSplit(s, '-');
  }

  lemma {:induction false} NonEmptyConcat(a: seq<string>, b: seq<string>)
    ensures NonEmpty(a + b) == NonEmpty(a) + NonEmpty(b)
  {
    if a == [] {
      assert a + b == b;
    } else {
      assert (a + b)[1..] == a[1..] + b;
      NonEmptyConcat(a[1..], b);
    }
  }

  lemma SqueezeTrailingDash(s: string)
    requires Slug(s)
    ensures Squeeze(s + ['-']) == s
  {
    SplitConcat(s, "", '-');
    assert s + ['-'] + "" == s + ['-'];
    NonEmptyConcat(Split(s, '-'), [""]);
    assert Split("", '-') == [""] && NonEmpty([""]) == NonEmpty([""][1..]) == [];
    assert NonEmpty(Split(s + ['-'], '-')) == NonEmpty(Split(s, '-'));
    SqueezeSlug(s);
  }

  lemma CleanPlain(s: string)
    requires Plain(s)
    ensures Clean(s) == s
  {
    assert forall i :: 0 <= i < |s| ==> s[i] in s;
  }

  lemma PlainTrimmed(s: string)
    requires Plain(s)
    ensures Trim(s) == s
  {
    if s != "" { assert s[0] in s && s[|s| - 1] in s; }
  }

  // A normalised id is non-empty, at most 64 characters, plain, and without a leading or
  // doubled dash; and it exists exactly when the text has an alphanumeric character.
  lemma SafeIdIsWellFormed(value: string)
    ensures SafeMemberId(value).Some? ==> WellFormedId(SafeMemberId(value).value)
    ensures SafeMemberId(value).Some? <==> exists c :: c in Trim(value) && Alnum(c)
  {
    var cleaned := Clean(Trim(value));
    CleanIsPlain(Trim(value));
    SqueezeIsSlug(cleaned);
    var s := Squeeze(cleaned);
    if s != "" {
      assert forall c :: c in Truncate(s) ==> c in s;
      assert s[0] in s && s[0] != '-';
      SqueezeKeeps(cleaned, s[0]);
      var i :| 0 <= i < |cleaned| && cleaned[i] == s[0];
      assert Trim(value)[i] in Trim(value);
    }
    if exists c :: c in Trim(value) && Alnum(c) {
      var c :| c in Trim(value) && Alnum(c);
      var i :| 0 <= i < |Trim(value)| && Trim(value)[i] == c;
      assert cleaned[i] == Lower(c) && cleaned[i] in cleaned;
      KeptBySqueeze(cleaned, Lower(c));
    }
  }

  lemma SqueezeKeeps(s: string, c: char)
    requires c in Squeeze(s) && c != '-'
    ensures c in s
  {
    JoinHolds(NonEmpty(Split(s, '-')), c);
    NonEmptyHolds(Split(s, '-'));
    PartsHaveNoSeparator(s, '-');
  }

  lemma {:induction false} InSomePart(s: string, c: char)
    requires c in s && c != '-'
    ensures exists p :: p in Split(s, '-') && c in p
  {
    var rest := Split(s[1..], '-');
    if s[0] == c {
      assert Split(s, '-')[0] == [s[0]] + rest[0];
      assert Split(s, '-')[0] in Split(s, '-');
    } else {
      assert s == [s[0]] + s[1..];
      InSomePart(s[1..], c);
      var p :| p in rest && c in p;
      if s[0] == '-' {
        assert p in [""] + rest;
      } else if p == rest[0] {
        assert Split(s, '-')[0] == [s[0]] + rest[0] && Split(s, '-')[0] in Split(s, '-');
      } else {
        assert p in rest[1..];
      }
    }
  }

  lemma KeptBySqueeze(s: string, c: char)
    requires c in s && c != '-'
    ensures Squeeze(s) != ""
  {
    InSomePart(s, c);
    NonEmptyHolds(Split(s, '-'));
    PartsHaveNoSeparator(s, '-');
    var p :| p in Split(s, '-') && c in p;
    assert p in NonEmpty(Split(s, '-'));
    JoinIsSlug(NonEmpty(Split(s, '-')));
  }

  // The second application drops a dash that truncation left at the end, and nothing else.
  lemma NormalisedAgain(id: string)
    requires WellFormedId(id)
    ensures SafeMemberId(id) == Some(if id[|id| - 1] == '-' then id[..|id| - 1] else id)
  {
    PlainTrimmed(id);
    CleanPlain(id);
    var n := |id| - 1;
    if id[n] == '-' {
      assert n > 0 && id[n - 1] != '-';
      assert Slug(id[..n]);
      SqueezeTrailingDash(id[..n]);
      assert id == id[..n] + ['-'];
    } else {
      SqueezeSlug(id);
    }
  }

  // Idempotence, exactly: normalising an id again changes it if and only if the text was cut
  // to 64 characters just behind a dash; a third application never changes anything.
  lemma IdempotentExactly(value: string)
    requires SafeMemberId(value).Some?
    ensures var once := SafeMemberId(value).value;
      && SafeMemberId(once).Some?
      && (SafeMemberId(once) == Some(once) <==> |Squeezed(value)| <= 64 || Squeezed(value)[63] != '-')
      && SafeMemberId(SafeMemberId(once).value) == SafeMemberId(once)
  {
    var once := SafeMemberId(value).value;
    SafeIdIsWellFormed(value);
    NormalisedAgain(once);
    SqueezeIsSlug(Clean(Trim(value)));
    var twice := SafeMemberId(once).value;
    if twice != once { assert twice == once[..|once| - 1] && once[|once| - 2] != '-'; }
    assert WellFormedId(twice) && twice[|twice| - 1] != '-' by {
      assert forall c :: c in twice ==> c in once;
    }
    NormalisedAgain(twice);
  }

  // Ids that fail: sixty-three characters, a dash, and anything after it.
  lemma CutBehindDash(a: string, b: string)
    requires Slug(a) && Plain(a) && Slug(b) && Plain(b) && |a| == 63 && b != ""
    ensures SafeMemberId(a + "-" + b) == Some(a + "-") && SafeMemberId(a + "-") == Some(a)
  {
    var whole := a + "-" + b;
    JoinedSlug(a, b);
    PlainTrimmed(whole);
    CleanPlain(whole);
    SqueezeSlug(whole);
    assert whole[..64] == a + "-";
    NormalisedAgain(a + "-");
    assert (a + "-")[..63] == a;
  }

  lemma JoinedSlug(a: string, b: string)
    requires Slug(a) && Plain(a) && Slug(b) && Plain(b) && a != "" && b != ""
    ensures Slug(a + "-" + b) && Plain(a + "-" + b) && NoDouble(a + "-")
  {
    var whole := a + "-" + b;
    assert whole[|a|] == '-' && forall i :: 0 <= i < |b| ==> whole[|a| + 1 + i] == b[i];
    forall i | 0 <= i < |whole| - 1 ensures !(whole[i] == '-' && whole[i + 1] == '-') {
      if i > |a| { assert whole[i] == b[i - |a| - 1] && whole[i + 1] == b[i - |a|]; }
    }
  }

  // ---- the allowlist --------------------------------------------------------------------------

  datatype Person = Person(id: string)

  // The identity service, as a function of its database.
  datatype Service = Service(
    byId: string -> Option<Person>,
    bySignal: string -> Option<Person>,
    byImessage: string -> Option<Person>,
    byKind: (string, string) -> Option<Person>)

  datatype Platform = Platform(name: string, signal: bool, imessage: bool)

  datatype Sender = Sender(platform: Platform, address: string, member: Option<string>, person: Option<Person>)

  datatype Parsed = Allowed(senders: map<string, Sender>) | BadMemberId

  datatype Directory = Directory(service: Option<Service>, legacy: string -> Option<Person>)

  function Resolve(d: Directory, address: string, p: Platform, member: Option<string>): Option<Person> {
    var found :=
      if d.service.None? then None
      else
        var s := d.service.value;
        (if member.Some? then s.byId(member.value) else None)
          .OrElse(if p.signal then s.bySignal(address) else None)
          .OrElse(if p.imessage then s.byImessage(address) else None)
          .OrElse(s.byKind(address, p.name));
    if found.Some? then found else if member.Some? then d.legacy(member.value) else None
  }

  // An entry `member=address` when both sides of the first equals sign are non-blank;
  // otherwise the whole entry is the address.
  function Cut(value: string): Option<(string, string)> {
    if value == "" then None
    else if value[0] == '=' then Some(("", value[1..]))
    else
      var rest := Cut(value[1..]);
      if rest.None? then None else Some(([value[0]] + rest.value.0, rest.value.1))
  }

  predicate Named(value: string) {
    var cut := Cut(value);
    cut.Some? && Trim(cut.value.0) != "" && Trim(cut.value.1) != ""
  }

  function AddressOf(value: string): string {
    if Named(value) then Trim(Cut(value).value.1) else value
  }

  function MemberOf(value: string): Option<string> {
    if Named(value) then SafeMemberId(Trim(Cut(value).value.0)) else None
  }

  function SenderOf(value: string, p: Platform, d: Directory): Sender {
    var person := Resolve(d, AddressOf(value), p, MemberOf(value));
    Sender(p, AddressOf(value), if person.Some? then Some(person.value.id) else MemberOf(value), person)
  }

  // What one entry does to the senders before it: nothing, an error, or one sender.
  datatype Effect = Skips | Raises | Adds(address: string, sender: Sender)

  // A blank entry is skipped, one whose member id has no alphanumeric raises.
  function EffectOf(entry: string, p: Platform, d: Directory): Effect {
    var value := Trim(entry);
    if value == "" then Skips
    else if Named(value) && MemberOf(value).None? then Raises
    else Adds(AddressOf(value), SenderOf(value, p, d))
  }

  function Apply(acc: Parsed, e: Effect): Parsed {
    if acc.BadMemberId? || e.Skips? then acc
    else if e.Raises? then BadMemberId
    else Allowed(acc.senders[e.address := e.sender])
  }

  function Effects(entries: seq<string>, p: Platform, d: Directory): seq<Effect> {
    seq(|entries|, i requires 0 <= i < |entries| => EffectOf(entries[i], p, d))
  }

  function Fold(effects: seq<Effect>): Parsed {
    if effects == [] then Allowed(map[])
    else Apply(Fold(effects[..|effects| - 1]), effects[|effects| - 1])
  }

  function Parse(raw: string, p: Platform, d: Directory): Parsed {
    Fold(Effects(Split(raw, ','), p, d))
  }

  method ParseAllowedSenders(raw: string, p: Platform, d: Directory) returns (r: Parsed)
    ensures r == Parse(raw, p, d)
  {
    var identities: map<string, Sender> := map[];
    var entries := Split(raw, ',');
    ghost var effects := Effects(entries, p, d);
    for k := 0 to |entries|
      invariant Allowed(identities) == Fold(effects[..k])
    {
      FoldNext(effects, k);
      var value := Trim(entries[k]);
      if value != "" {
        var member: Option<string> := None;
        var address := value;
        var cut := Cut(value);
        if cut.Some? && Trim(cut.value.0) != "" && Trim(cut.value.1) != "" {
          member := SafeMemberId(Trim(cut.value.0));
          if member.None? {
            AllBad(effects, k + 1);
            return BadMemberId;
          }
          address := Trim(cut.value.1);
        }
        var person := Resolve(d, address, p, member);
        var memberId := if person.Some? then Some(person.value.id) else member;
        identities := identities[address := Sender(p, address, memberId, person)];
      }
    }
    assert effects[..|entries|] == effects;
    r := Allowed(identities);
  }

  lemma FoldNext(effects: seq<Effect>, k: nat)
    requires k < |effects|
    ensures Fold(effects[..k + 1]) == Apply(Fold(effects[..k]), effects[k])
  {
    assert effects[..k + 1][..k] == effects[..k];
  }

  // An error ends the parse.
  lemma {:induction false} AllBad(effects: seq<Effect>, k: nat)
    requires k <= |effects| && Fold(effects[..k]).BadMemberId?
    ensures Fold(effects).BadMemberId?
    decreases |effects|
  {
    if k < |effects| {
      assert effects[..|effects| - 1][..k] == effects[..k];
      AllBad(effects[..|effects| - 1], k);
    } else {
      assert effects[..k] == effects;
    }
  }

  // ---- concatenation -----------------------------------------------------------------------------

  function Override(a: Parsed, b: Parsed): Parsed {
    if a.BadMemberId? || b.BadMemberId? then BadMemberId else Allowed(a.senders + b.senders)
  }

  lemma ApplyOverride(left: Parsed, right: Parsed, e: Effect)
    ensures Apply(Override(left, right), e) == Override(left, Apply(right, e))
  {
    if left.Allowed? && right.Allowed? && e.Adds? {
      var k, sender := e.address, e.sender;
      assert (left.senders + right.senders)[k := sender] == left.senders + right.senders[k := sender];
    }
  }

  lemma {:induction false} FoldConcat(a: seq<Effect>, b: seq<Effect>)
    ensures Fold(a + b) == Override(Fold(a), Fold(b))
  {
    if b == [] {
      assert a + b == a;
      if Fold(a).Allowed? { assert Fold(a).senders + map[] == Fold(a).senders; }
    } else {
      var init, last := b[..|b| - 1], b[|b| - 1];
      FoldConcat(a, init);
      assert (a + b)[..|a + b| - 1] == a + init;
      ApplyOverride(Fold(a), Fold(init), last);
    }
  }

  lemma EffectsConcat(a: seq<string>, b: seq<string>, p: Platform, d: Directory)
    ensures Effects(a + b, p, d) == Effects(a, p, d) + Effects(b, p, d)
  {
  }

  // Two lists joined by a comma: the senders of both, the second overriding the first; it
  // fails exactly when one of them does.
  lemma ConcatenationOverrides(a: string, b: string, p: Platform, d: Directory)
    ensures Parse(a + "," + b, p, d) == Override(Parse(a, p, d), Parse(b, p, d))
  {
    SplitConcat(a, b, ',');
    EffectsConcat(Split(a, ','), Split(b, ','), p, d);
    FoldConcat(Effects(Split(a, ','), p, d), Effects(Split(b, ','), p, d));
  }

  // A sender is stored under its own address, which is trimmed, not empty, and has no comma.
  ghost predicate KeyedByAddress(r: Parsed) {
    r.Allowed? ==> forall k :: k in r.senders ==> r.senders[k].address == k && k != "" && Trimmed(k) && ',' !in k
  }

  lemma {:induction false} CutParts(value: string, c: char)
    ensures Cut(value).Some? && c in Cut(value).value.1 ==> c in value
  {
    if value != "" {
      CutParts(value[1..], c);
      assert value == [value[0]] + value[1..];
    }
  }

  ghost predicate AddsKeyed(e: Effect) {
    e.Adds? ==> e.sender.address == e.address && e.address != "" && Trimmed(e.address) && ',' !in e.address
  }

  lemma EffectKeyed(entry: string, p: Platform, d: Directory)
    requires ',' !in entry
    ensures AddsKeyed(EffectOf(entry, p, d))
  {
    var value := Trim(entry);
    TrimIsTrimmed(entry);
    CutParts(value, ',');
    if Named(value) { TrimIsTrimmed(Cut(value).value.1); }
  }

  lemma {:induction false} FoldKeyed(effects: seq<Effect>)
    requires forall i :: 0 <= i < |effects| ==> AddsKeyed(effects[i])
    ensures KeyedByAddress(Fold(effects))
  {
    if effects != [] { FoldKeyed(effects[..|effects| - 1]); }
  }

  lemma SendersAreKeyedByAddress(raw: string, p: Platform, d: Directory)
    ensures KeyedByAddress(Parse(raw, p, d))
  {
    PartsHaveNoSeparator(raw, ',');
    var entries := Split(raw, ',');
    forall i | 0 <= i < |entries| ensures AddsKeyed(Effects(entries, p, d)[i]) {
      assert entries[i] in entries;
      EffectKeyed(entries[i], p, d);
    }
    FoldKeyed(Effects(entries, p, d));
  }
}
