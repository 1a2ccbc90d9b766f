/** What one entry of the sender allowlist means, from its text. */
module SenderEntries {
  import opened Wrappers
  import opened Text
  import opened Allowlist

  // ---- member ids, word by word ----------------------------------------------------------

  predicate WordChar(c: char) {
    ('a' <= c && c <= 'z') || ('A' <= c && c <= 'Z') || ('0' <= c && c <= '9')
  }

  // The text with its capitals made small.
  ghost predicate IsFolded(s: string, t: string) {
    |s| == |t| && forall k :: 0 <= k < |s| ==> t[k] as int == s[k] as int + if 'A' <= s[k] <= 'Z' then 32 else 0
  }

  // Two texts with or without a dash between them.
  function Dashed(a: string, b: string): string {
    if a == "" then b else if b == "" then a else a + "-" + b
  }

  // The non-empty groups between dashes.
  function Groups(s: string): seq<string> {
    NonEmpty(Split(Clean(s), '-'))
  }

  lemma GroupsConcat(a: string, c: char, b: string)
    requires !Alnum(c)
    ensures Groups(a + [c] + b) == Groups(a) + Groups(b)
  {
    assert Clean(a + [c] + b) == Clean(a) + ['-'] + Clean(b);
    SplitConcat(Clean(a), Clean(b), '-');
    NonEmptyConcat(Split(Clean(a), '-'), Split(Clean(b), '-'));
  }

  lemma NoGroups()
    ensures Groups("") == []
  {
    assert Clean("") == "" && Split("", '-') == [""] && NonEmpty([""]) == NonEmpty([""][1..]) == [];
  }

  lemma {:induction false} TrimLeftGroups(s: string)
    ensures Groups(TrimLeft(s)) == Groups(s)
  {
    if s != "" && Blank(s[0]) {
      TrimLeftGroups(s[1..]);
      GroupsConcat("", s[0], s[1..]);
      NoGroups();
      assert s == "" + [s[0]] + s[1..];
    }
  }

  lemma {:induction false} TrimRightGroups(s: string)
    ensures Groups(TrimRight(s)) == Groups(s)
  {
    if s != "" && Blank(s[|s| - 1]) {
      TrimRightGroups(s[..|s| - 1]);
      GroupsConcat(s[..|s| - 1], s[|s| - 1], "");
      NoGroups();
      assert s == s[..|s| - 1] + [s[|s| - 1]] + "";
    }
  }

  lemma SqueezedGroups(s: string)
    ensures Squeezed(s) == Join(Groups(s), '-')
  {
    TrimLeftGroups(s);
    TrimRightGroups(TrimLeft(s));
  }

  lemma {:induction false} JoinConcat(a: seq<string>, b: seq<string>)
    requires forall p :: p in a + b ==> p != ""
    ensures Join(a + b, '-') == Dashed(Join(a, '-'), Join(b, '-'))
  {
    if a == [] {
      assert a + b == b;
    } else {
      assert forall p :: p in a[1..] + b ==> p in a + b;
      assert a[0] in a + b;
      JoinConcat(a[1..], b);
      assert (a + b)[1..] == a[1..] + b;
      assert b != [] ==> b[0] in a + b;
      if |a| == 1 { assert a[1..] == []; }
    }
  }

  // Every other character separates; a run of separators counts as one, and none at the ends.
  lemma SeparatorBetween(a: string, c: char, b: string)
    requires !WordChar(c)
    ensures Squeezed(a + [c] + b) == Dashed(Squeezed(a), Squeezed(b))
  {
    SqueezedGroups(a);
    SqueezedGroups(b);
    SqueezedGroups(a + [c] + b);
    GroupsConcat(a, c, b);
    NonEmptyHolds(Split(Clean(a), '-'));
    NonEmptyHolds(Split(Clean(b), '-'));
    JoinConcat(Groups(a), Groups(b));
  }

  lemma {:induction false} OneGroup(s: string)
    requires '-' !in s
    ensures Split(s, '-') == [s]
  {
    if s != "" {
      assert s[0] in s && forall c :: c in s[1..] ==> c in s;
      OneGroup(s[1..]);
      assert s == [s[0]] + s[1..];
    }
  }

  // A word is kept, in small letters, and an id is the first sixty-four characters of it all.
  lemma WordIsKept(word: string, value: string)
    requires forall c :: c in word ==> WordChar(c)
    ensures IsFolded(word, Squeezed(word))
    ensures SafeMemberId(value) ==
      if Squeezed(value) == "" then None
      else if |Squeezed(value)| > 64 then Some(Squeezed(value)[..64]) else Some(Squeezed(value))
  {
    var clean := Clean(word);
    assert forall k :: 0 <= k < |word| ==> word[k] in word;
    OneGroup(clean);
    SqueezedGroups(word);
    assert NonEmpty([clean][1..]) == [];
  }

  // ---- one entry -----------------------------------------------------------------------------

  // Whom an address stands for: by the member id, then as a Signal sender, then as an iMessage
  // sender, then by its kind, and last the legacy member; the first who is known.
  lemma ResolveOrder(d: Directory, address: string, p: Platform, member: Option<string>)
    ensures var person := Resolve(d, address, p, member);
      var byId := if d.service.Some? && member.Some? then d.service.value.byId(member.value) else None;
      var bySignal := if d.service.Some? && p.signal then d.service.value.bySignal(address) else None;
      var byImessage := if d.service.Some? && p.imessage then d.service.value.byImessage(address) else None;
      var byKind := if d.service.Some? then d.service.value.byKind(address, p.name) else None;
      && (byId.Some? ==> person == byId)
      && (byId.None? && bySignal.Some? ==> person == bySignal)
      && (byId.None? && bySignal.None? && byImessage.Some? ==> person == byImessage)
      && (byId.None? && bySignal.None? && byImessage.None? && byKind.Some? ==> person == byKind)
      && (byId.None? && bySignal.None? && byImessage.None? && byKind.None? ==>
            person == if member.Some? then d.legacy(member.value) else None)
  {
  }

  // The sender that an address with a member id makes.
  function Known(p: Platform, address: string, member: Option<string>, person: Option<Person>): Sender {
    match person
    case Some(known) => Sender(p, address, Some(known.id), person)
    case None => Sender(p, address, member, None)
  }

  lemma {:induction false} CutAt(left: string, right: string)
    requires '=' !in left
    ensures Cut(left + "=" + right) == Some((left, right))
  {
    var value := left + "=" + right;
    if left == "" {
      assert value[1..] == right;
    } else {
      assert left[0] in left && forall c :: c in left[1..] ==> c in left;
      assert value[1..] == left[1..] + "=" + right;
      CutAt(left[1..], right);
      assert left == [left[0]] + left[1..];
    }
  }

  lemma {:induction false} NoCut(value: string)
    ensures '=' !in value <==> Cut(value).None?
  {
    if value != "" {
      NoCut(value[1..]);
      assert value == [value[0]] + value[1..];
    }
  }

  lemma OneEntry(entry: string, p: Platform, d: Directory)
    requires ',' !in entry
    ensures Parse(entry, p, d) == Apply(Allowed(map[]), EffectOf(entry, p, d))
  {
    NoComma(entry);
    var effects := [EffectOf(entry, p, d)];
    assert Effects(Split(entry, ','), p, d) == effects;
    var none := effects[..|effects| - 1];
    assert none == [] && Fold(none) == Allowed(map[]);
  }

  lemma {:induction false} NoComma(s: string)
    requires ',' !in s
    ensures Split(s, ',') == [s]
  {
    if s != "" {
      assert s[0] in s && forall c :: c in s[1..] ==> c in s;
      NoComma(s[1..]);
      assert s == [s[0]] + s[1..];
    }
  }

  // Blanks around an entry do not count.
  lemma EntryIsTrimmed(entry: string, p: Platform, d: Directory)
    requires ',' !in entry
    ensures Parse(entry, p, d) == Parse(Trim(entry), p, d)
  {
    TrimIsTrimmed(entry);
    TrimmedIsTrim(Trim(entry));
    OneEntry(entry, p, d);
    OneEntry(Trim(entry), p, d);
  }

  // An entry without an equals sign is an address, and nothing when it is blank.
  lemma PlainEntry(entry: string, p: Platform, d: Directory)
    requires ',' !in entry && '=' !in entry
    ensures Parse(entry, p, d) ==
      if Trim(entry) == "" then Allowed(map[])
      else Allowed(map[Trim(entry) := Known(p, Trim(entry), None, Resolve(d, Trim(entry), p, None))])
  {
    OneEntry(entry, p, d);
    TrimIsTrimmed(entry);
    NoCut(Trim(entry));
  }

  // `member=address`, without blanks around it: the member id is what the text before the first
  // equals sign normalises to, and the address is the rest. It fails when the text before it has
  // no letter or digit; when one side is blank the whole entry is the address.
  lemma NamedEntry(left: string, right: string, p: Platform, d: Directory)
    requires ',' !in left && ',' !in right && '=' !in left && Trimmed(left + "=" + right)
    ensures var entry, member := left + "=" + right, SafeMemberId(Trim(left));
      Parse(entry, p, d) ==
        if Trim(left) == "" || Trim(right) == "" then
          Allowed(map[entry := Known(p, entry, None, Resolve(d, entry, p, None))])
        else if forall c :: c in Trim(left) ==> !WordChar(c) then BadMemberId
        else Allowed(map[Trim(right) := Known(p, Trim(right), member, Resolve(d, Trim(right), p, member))])
  {
    OneEntry(left + "=" + right, p, d);
    NamedEffect(left, right, p, d);
    MemberIdExists(left);
  }

  lemma NamedEffect(left: string, right: string, p: Platform, d: Directory)
    requires '=' !in left && Trimmed(left + "=" + right)
    ensures var entry, member := left + "=" + right, SafeMemberId(Trim(left));
      EffectOf(entry, p, d) ==
        if Trim(left) == "" || Trim(right) == "" then Adds(entry, Known(p, entry, None, Resolve(d, entry, p, None)))
        else if member.None? then Raises
        else Adds(Trim(right), Known(p, Trim(right), member, Resolve(d, Trim(right), p, member)))
  {
    TrimmedIsTrim(left + "=" + right);
    CutAt(left, right);
  }

  lemma MemberIdExists(left: string)
    ensures SafeMemberId(Trim(left)).None? <==> forall c :: c in Trim(left) ==> !WordChar(c)
  {
    SafeIdIsWellFormed(Trim(left));
    TrimIsTrimmed(left);
    TrimmedIsTrim(Trim(left));
  }

  lemma TrimmedIsTrim(s: string)
    requires Trimmed(s)
    ensures Trim(s) == s
  {
  }
}
