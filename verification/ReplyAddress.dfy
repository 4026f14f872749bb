/** The ticket reply address: its printer, and the search for a ticket among a mail's recipients.
    Case folding is modelled on ASCII letters; other characters fold to themselves. */
module ReplyAddress {
  import opened Basics

  // ---------------------------------------------------------------- strings

  /** The characters String.prototype.trim removes. */
  predicate IsSpace(c: char) {
    c in " \t\n\r" || c == '\U{000B}' || c == '\U{000C}' || c == '\U{00A0}' || c == '\U{1680}' ||
    '\U{2000}' <= c <= '\U{200A}' || c == '\U{2028}' || c == '\U{2029}' || c == '\U{202F}' ||
    c == '\U{205F}' || c == '\U{3000}' || c == '\U{FEFF}'
  }

  function TrimStart(s: string): string {
    if s != [] && IsSpace(s[0]) then TrimStart(s[1..]) else s
  }

  function TrimEnd(s: string): string {
    if s != [] && IsSpace(s[|s| - 1]) then TrimEnd(s[..|s| - 1]) else s
  }

  function Trim(s: string): string {
    TrimEnd(TrimStart(s))
  }

  function LowerChar(c: char): char {
    if 'A' <= c <= 'Z' then c - 'A' + 'a' else c
  }

  function Lower(s: string): (r: string)
    ensures |r| == |s|
  {
    seq(|s|, i requires 0 <= i < |s| => LowerChar(s[i]))
  }

  predicate NoAngles(s: string) {
    forall i :: 0 <= i < |s| ==> s[i] != '<' && s[i] != '>'
  }

  /** How many characters other than angle brackets s starts with. */
  function PlainRun(s: string): (n: nat)
    ensures n <= |s|
  {
    if s == [] || s[0] == '<' || s[0] == '>' then 0 else 1 + PlainRun(s[1..])
  }

  /** The group of the leftmost match of <([^<>]+)>, if there is a match. */
  function Bracketed(s: string): Option<string> {
    if s == [] then None
    else
      var n := PlainRun(s[1..]);
      if s[0] == '<' && n > 0 && 1 + n < |s| && s[1 + n] == '>' then Some(s[1..1 + n]) else Bracketed(s[1..])
  }

  // ---------------------------------------------------------------- addresses

  function NormalizeEmailAddress(value: string): string {
    var trimmed := Trim(value);
    Lower(Trim(match Bracketed(trimmed) case Some(inner) => inner case None => trimmed))
  }

  function BuildTicketReplyAddress(ticketId: string, inboundDomain: string): string {
    Lower("ticket-" + ticketId + "@" + inboundDomain)
  }

  predicate IsHex(c: char) {
    '0' <= c <= '9' || 'a' <= c <= 'f' || 'A' <= c <= 'F'
  }

  /** A version 4 UUID in the text form of section 3 of RFC 4122, version and variant as in section 4.4. */
  predicate IsUuidV4(s: string) {
    && |s| == 36
    && (forall i :: 0 <= i < 36 ==> if i in {8, 13, 18, 23} then s[i] == '-' else IsHex(s[i]))
    && s[14] == '4'
    && s[19] in "89abAB"
  }

  /** One turn of the search loop. */
  function TicketIdOf(recipient: string, suffix: string): Option<string> {
    var address := NormalizeEmailAddress(recipient);
    if !(|suffix| <= |address| && address[|address| - |suffix|..] == suffix) then None
    else
      var localPart := address[..|address| - |suffix|];
      if !("ticket-" <= localPart) then None
      else if IsUuidV4(localPart[7..]) then Some(localPart[7..])
      else None
  }

  function Suffix(inboundDomain: string): string {
    "@" + Lower(Trim(inboundDomain))
  }

  /** The search as a function: the first recipient that names a ticket wins. */
  function Extract(recipients: seq<string>, inboundDomain: string): Option<string> {
    if recipients == [] then None
    else if TicketIdOf(recipients[0], Suffix(inboundDomain)).Some? then TicketIdOf(recipients[0], Suffix(inboundDomain))
    else Extract(recipients[1..], inboundDomain)
  }

  method ExtractTicketIdFromRecipients(recipients: seq<string>, inboundDomain: string) returns (ticketId: Option<string>)
    ensures ticketId == Extract(recipients, inboundDomain)
  {
    var suffix := "@" + Lower(Trim(inboundDomain));
    for i := 0 to |recipients|
      invariant Extract(recipients, inboundDomain) == Extract(recipients[i..], inboundDomain)
    {
      var address := NormalizeEmailAddress(recipients[i]);
      if !(|suffix| <= |address| && address[|address| - |suffix|..] == suffix) {
        continue;
      }
      var localPart := address[..|address| - |suffix|];
      if !("ticket-" <= localPart) {
        continue;
      }
      var id := localPart[7..];
      if IsUuidV4(id) {
        return Some(id);
      }
    }
    ticketId := None;
  }

  lemma {:induction false} RestOf<T>(xs: seq<T>, i: nat)
    requires 0 < i < |xs|
    ensures xs[1..][i - 1] == xs[i] && forall j :: 0 <= j < i - 1 ==> xs[1..][j] == xs[j + 1]
  {
  }

  /** The first recipient to name a ticket decides, and without one there is no ticket. */
  lemma {:induction false} FirstMatchIsExtract(recipients: seq<string>, inboundDomain: string, i: nat)
    requires i < |recipients| && TicketIdOf(recipients[i], Suffix(inboundDomain)).Some?
    requires forall j :: 0 <= j < i ==> TicketIdOf(recipients[j], Suffix(inboundDomain)).None?
    ensures Extract(recipients, inboundDomain) == TicketIdOf(recipients[i], Suffix(inboundDomain))
  {
    if i > 0 {
      RestOf(recipients, i);
      FirstMatchIsExtract(recipients[1..], inboundDomain, i - 1);
    }
  }

  // ---------------------------------------------------------------- what the search accepts

  /** A recipient names ticket id exactly when its normal form is the reply address of a version 4 UUID. */
  lemma {:induction false} AcceptsExactlyReplyAddresses(recipient: string, inboundDomain: string, id: string)
    ensures TicketIdOf(recipient, Suffix(inboundDomain)) == Some(id) <==>
            IsUuidV4(id) && NormalizeEmailAddress(recipient) == "ticket-" + id + Suffix(inboundDomain)
  {
    var address, suffix := NormalizeEmailAddress(recipient), Suffix(inboundDomain);
    if address == "ticket-" + id + suffix {
      SplitsAtSuffix(address, "ticket-" + id, suffix);
      assert ("ticket-" + id)[7..] == id;
    }
    if TicketIdOf(recipient, suffix) == Some(id) {
      NamesItsAddress(address, id, suffix);
    }
  }

  lemma {:induction false} SplitsAtSuffix(address: string, localPart: string, suffix: string)
    requires address == localPart + suffix
    ensures |suffix| <= |address| && address[|address| - |suffix|..] == suffix && address[..|address| - |suffix|] == localPart
  {
  }

  lemma {:induction false} NamesItsAddress(address: string, id: string, suffix: string)
    requires |suffix| <= |address| && address[|address| - |suffix|..] == suffix
    requires "ticket-" <= address[..|address| - |suffix|] && address[..|address| - |suffix|][7..] == id
    ensures address == "ticket-" + id + suffix
  {
    var localPart := address[..|address| - |suffix|];
    assert address == localPart + suffix && localPart == localPart[..7] + localPart[7..];
  }

  /** The recipient's normal form is the reply address of ticket id. */
  ghost predicate NamesTicket(recipient: string, inboundDomain: string, id: string) {
    IsUuidV4(id) && NormalizeEmailAddress(recipient) == "ticket-" + id + "@" + Lower(Trim(inboundDomain))
  }

  /** The first recipient that names a ticket names this one. */
  ghost predicate FirstNamed(recipients: seq<string>, inboundDomain: string, id: string) {
    exists i :: 0 <= i < |recipients| && NamesTicket(recipients[i], inboundDomain, id) && NobodyNamed(recipients[..i], inboundDomain)
  }

  ghost predicate NobodyNamed(recipients: seq<string>, inboundDomain: string) {
    forall j, id :: 0 <= j < |recipients| ==> !NamesTicket(recipients[j], inboundDomain, id)
  }

  lemma {:induction false} NamesExactly(recipient: string, inboundDomain: string)
    ensures forall id :: NamesTicket(recipient, inboundDomain, id) <==> TicketIdOf(recipient, Suffix(inboundDomain)) == Some(id)
    ensures (forall id :: !NamesTicket(recipient, inboundDomain, id)) <==> TicketIdOf(recipient, Suffix(inboundDomain)).None?
  {
    forall id ensures NamesTicket(recipient, inboundDomain, id) <==> TicketIdOf(recipient, Suffix(inboundDomain)) == Some(id) {
      AcceptsExactlyReplyAddresses(recipient, inboundDomain, id);
      assert "ticket-" + id + "@" + Lower(Trim(inboundDomain)) == "ticket-" + id + Suffix(inboundDomain);
    }
    var t := TicketIdOf(recipient, Suffix(inboundDomain));
    assert t.Some? ==> NamesTicket(recipient, inboundDomain, t.value);
  }

  /** The search finds the ticket the first naming recipient names, and nothing when none does. */
  lemma {:induction false} ExtractsFirstNamed(recipients: seq<string>, inboundDomain: string)
    ensures Extract(recipients, inboundDomain).None? <==> NobodyNamed(recipients, inboundDomain)
    ensures forall id :: FirstNamed(recipients, inboundDomain, id) <==> Extract(recipients, inboundDomain) == Some(id)
  {
    forall j | 0 <= j < |recipients|
      ensures forall id :: NamesTicket(recipients[j], inboundDomain, id) <==> TicketIdOf(recipients[j], Suffix(inboundDomain)) == Some(id)
    {
      NamesExactly(recipients[j], inboundDomain);
    }
    var i := ExtractsAt(recipients, inboundDomain);
    forall id | FirstNamed(recipients, inboundDomain, id) ensures Extract(recipients, inboundDomain) == Some(id) {
      FirstNamedIsExtract(recipients, inboundDomain, id);
    }
    if i < |recipients| {
      var id := TicketIdOf(recipients[i], Suffix(inboundDomain)).value;
      assert NamesTicket(recipients[i], inboundDomain, id) && NobodyNamed(recipients[..i], inboundDomain);
    }
  }

  lemma {:induction false} FirstNamedIsExtract(recipients: seq<string>, inboundDomain: string, id: string)
    requires FirstNamed(recipients, inboundDomain, id)
    ensures Extract(recipients, inboundDomain) == Some(id)
  {
    var i :| 0 <= i < |recipients| && NamesTicket(recipients[i], inboundDomain, id) && NobodyNamed(recipients[..i], inboundDomain);
    NamesExactly(recipients[i], inboundDomain);
    forall j | 0 <= j < i ensures TicketIdOf(recipients[j], Suffix(inboundDomain)).None? {
      NamesExactly(recipients[j], inboundDomain);
      assert recipients[j] == recipients[..i][j];
    }
    FirstMatchIsExtract(recipients, inboundDomain, i);
  }

  /** Where the search stops. */
  lemma {:induction false} ExtractsAt(recipients: seq<string>, inboundDomain: string) returns (i: nat)
    ensures i <= |recipients| && forall j :: 0 <= j < i ==> TicketIdOf(recipients[j], Suffix(inboundDomain)).None?
    ensures i < |recipients| ==>
              TicketIdOf(recipients[i], Suffix(inboundDomain)).Some? &&
              Extract(recipients, inboundDomain) == TicketIdOf(recipients[i], Suffix(inboundDomain))
    ensures i == |recipients| ==> Extract(recipients, inboundDomain).None?
  {
    i := 0;
    if recipients != [] && TicketIdOf(recipients[0], Suffix(inboundDomain)).None? {
      var k := ExtractsAt(recipients[1..], inboundDomain);
      i := k + 1;
      forall j | 0 <= j < i ensures TicketIdOf(recipients[j], Suffix(inboundDomain)).None? {
        if j > 0 {
          RestOf(recipients, j);
        }
      }
      if i < |recipients| {
        RestOf(recipients, i);
      }
    }
  }

  // ---------------------------------------------------------------- what the parts of the search are

  /** <([^<>]+)> matches at i with this group. */
  predicate BracketsAt(s: string, i: nat, group: string) {
    && group != [] && NoAngles(group)
    && i + |group| + 1 < |s| && s[i] == '<' && s[i + 1..i + 1 + |group|] == group && s[i + 1 + |group|] == '>'
  }

  lemma {:induction false} PlainRunIs(s: string)
    ensures NoAngles(s[..PlainRun(s)]) && (PlainRun(s) < |s| ==> s[PlainRun(s)] in "<>")
  {
    if s != [] && s[0] != '<' && s[0] != '>' {
      PlainRunIs(s[1..]);
      assert s[..PlainRun(s)] == [s[0]] + s[1..][..PlainRun(s[1..])];
    }
  }

  lemma {:induction false} RunOfGroup(s: string, group: string)
    requires NoAngles(group) && |group| < |s| && s[..|group|] == group && s[|group|] in "<>"
    ensures PlainRun(s) == |group|
  {
    if group != [] {
      assert s[0] == group[0];
      assert s[1..][..|group| - 1] == group[1..];
      RunOfGroup(s[1..], group[1..]);
    }
  }

  /** At the front of s there is a match exactly when the search looks no further, and then only one. */
  lemma {:induction false} BracketsInFront(s: string, group: string)
    requires s != []
    ensures BracketsAt(s, 0, group) <==>
            var n := PlainRun(s[1..]);
            s[0] == '<' && n > 0 && 1 + n < |s| && s[1 + n] == '>' && group == s[1..1 + n]
  {
    var n := PlainRun(s[1..]);
    PlainRunIs(s[1..]);
    if BracketsAt(s, 0, group) {
      assert s[1..][..|group|] == group && s[1..][|group|] == '>';
      RunOfGroup(s[1..], group);
    }
    if s[0] == '<' && n > 0 && 1 + n < |s| && s[1 + n] == '>' && group == s[1..1 + n] {
      assert group == s[1..][..n];
    }
  }

  /** The bracketed part is the group of the leftmost match, and there is one if anything matches. */
  lemma {:induction false} BracketedIsLeftmost(s: string)
    ensures Bracketed(s).Some? ==>
              exists i :: 0 <= i < |s| && BracketsAt(s, i, Bracketed(s).value) && forall j, g :: 0 <= j < i ==> !BracketsAt(s, j, g)
    ensures Bracketed(s).None? ==> forall i: nat, g :: !BracketsAt(s, i, g)
  {
    if s != [] {
      forall g ensures BracketsAt(s, 0, g) <==>
                       var n := PlainRun(s[1..]); s[0] == '<' && n > 0 && 1 + n < |s| && s[1 + n] == '>' && g == s[1..1 + n] {
        BracketsInFront(s, g);
      }
      var n := PlainRun(s[1..]);
      if s[0] == '<' && n > 0 && 1 + n < |s| && s[1 + n] == '>' {
        assert BracketsAt(s, 0, Bracketed(s).value);
      } else {
        BracketedIsLeftmost(s[1..]);
        forall i: nat, g ensures i > 0 ==> BracketsAt(s, i, g) == BracketsAt(s[1..], i - 1, g) {
          ShiftBrackets(s, i, g);
        }
        if Bracketed(s).Some? {
          var i :| 0 <= i < |s[1..]| && BracketsAt(s[1..], i, Bracketed(s).value) && forall j, g :: 0 <= j < i ==> !BracketsAt(s[1..], j, g);
          assert BracketsAt(s, i + 1, Bracketed(s).value);
        }
      }
    }
  }

  lemma {:induction false} ShiftBrackets(s: string, i: nat, g: string)
    requires s != []
    ensures i > 0 ==> BracketsAt(s, i, g) == BracketsAt(s[1..], i - 1, g)
  {
    if i > 0 && i + |g| + 1 < |s| {
      var here, there := s[i + 1..i + 1 + |g|], s[1..][i..i + |g|];
      assert |here| == |there| == |g|;
      assert forall k :: 0 <= k < |g| ==> here[k] == s[i + 1 + k] && there[k] == s[1..][i + k] == s[i + 1 + k];
      assert here == there;
      assert s[1..][i - 1] == s[i] && s[1..][i + |g|] == s[i + 1 + |g|];
    }
  }

  /** Trimming takes off exactly the white space at both ends. */
  lemma {:induction false} TrimTakesEnds(s: string)
    ensures exists i, j :: 0 <= i <= j <= |s| && Trim(s) == s[i..j] && AllSpace(s[..i]) && AllSpace(s[j..])
    ensures Trim(s) != [] ==> !IsSpace(Trim(s)[0]) && !IsSpace(Trim(s)[|Trim(s)| - 1])
  {
    var i := StartOf(s);
    var rest := s[i..];
    var k := EndOf(rest);
    assert Trim(s) == s[i..i + k] && rest[k..] == s[i + k..];
  }

  /** White space, by its code points. */
  lemma {:induction false} SpaceCodes(c: char)
    ensures IsSpace(c) <==> var n := c as int;
              n in {9, 10, 11, 12, 13, 32, 0xA0, 0x1680, 0x2028, 0x2029, 0x202F, 0x205F, 0x3000, 0xFEFF} || 0x2000 <= n <= 0x200A
  {
  }

  predicate AllSpace(s: string) {
    forall i :: 0 <= i < |s| ==> IsSpace(s[i])
  }

  lemma {:induction false} StartOf(s: string) returns (i: nat)
    ensures i <= |s| && TrimStart(s) == s[i..] && AllSpace(s[..i]) && (i < |s| ==> !IsSpace(s[i]))
  {
    i := 0;
    if s != [] && IsSpace(s[0]) {
      var k := StartOf(s[1..]);
      i := k + 1;
      assert s[..i] == [s[0]] + s[1..][..k];
    }
  }

  lemma {:induction false} EndOf(s: string) returns (k: nat)
    ensures k <= |s| && TrimEnd(s) == s[..k] && AllSpace(s[k..]) && (k > 0 ==> !IsSpace(s[k - 1]))
  {
    k := |s|;
    if s != [] && IsSpace(s[|s| - 1]) {
      k := EndOf(s[..|s| - 1]);
      assert s[k..] == s[..|s| - 1][k..] + [s[|s| - 1]];
    }
  }

  /** Lower-casing moves the 26 capital letters and nothing else. */
  lemma {:induction false} LowerExactly(s: string, i: nat)
    requires i < |s|
    ensures Lower(s)[i] as int == if 65 <= s[i] as int <= 90 then s[i] as int + 32 else s[i] as int
  {
  }

  predicate AllHex(s: string, n: nat) {
    |s| == n && forall i :: 0 <= i < n ==> '0' <= s[i] <= '9' || 'a' <= s[i] <= 'f' || 'A' <= s[i] <= 'F'
  }

  /** The pattern of a version 4 UUID: five groups of digits, the third starting with 4, the fourth with one
      of 8, 9, a and b. */
  lemma {:induction false} UuidPattern(s: string)
    ensures IsUuidV4(s) <==>
            |s| == 36 && AllHex(s[0..8], 8) && s[8] == '-' && AllHex(s[9..13], 4) && s[13] == '-' &&
            s[14] == '4' && AllHex(s[15..18], 3) && s[18] == '-' && s[19] in {'8', '9', 'a', 'b', 'A', 'B'} &&
            AllHex(s[20..23], 3) && s[23] == '-' && AllHex(s[24..36], 12)
  {
    if |s| == 36 && AllHex(s[0..8], 8) && AllHex(s[9..13], 4) && AllHex(s[15..18], 3) && AllHex(s[20..23], 3) && AllHex(s[24..36], 12) {
      assert forall i :: 0 <= i < 8 ==> s[i] == s[0..8][i];
      assert forall i :: 9 <= i < 13 ==> s[i] == s[9..13][i - 9];
      assert forall i :: 15 <= i < 18 ==> s[i] == s[15..18][i - 15];
      assert forall i :: 20 <= i < 23 ==> s[i] == s[20..23][i - 20];
      assert forall i :: 24 <= i < 36 ==> s[i] == s[24..36][i - 24];
    }
  }

  // ---------------------------------------------------------------- round trip

  lemma {:induction false} LowerFacts(s: string)
    ensures Lower(Lower(s)) == Lower(s)
    ensures NoAngles(s) ==> NoAngles(Lower(s))
    ensures forall i :: 0 <= i < |s| ==> IsSpace(Lower(s)[i]) == IsSpace(s[i])
  {
  }

  lemma {:induction false} LowerConcat(s: string, t: string)
    ensures Lower(s + t) == Lower(s) + Lower(t)
  {
  }

  lemma {:induction false} TrimEndKeepsFirst(s: string)
    ensures TrimEnd(s) <= s
    ensures TrimEnd(s) != [] ==> !IsSpace(TrimEnd(s)[|TrimEnd(s)| - 1])
  {
    if s != [] && IsSpace(s[|s| - 1]) {
      TrimEndKeepsFirst(s[..|s| - 1]);
    }
  }

  lemma {:induction false} TrimStartConcat(x: string, y: string)
    requires y != [] && !IsSpace(y[0])
    ensures TrimStart(x + y) == TrimStart(x) + y
  {
    if x == [] {
      assert x + y == y;
    } else {
      assert (x + y)[1..] == x[1..] + y;
      if IsSpace(x[0]) {
        TrimStartConcat(x[1..], y);
      }
    }
  }

  lemma {:induction false} TrimStartKeepsPlain(x: string)
    requires NoAngles(x)
    ensures NoAngles(TrimStart(x))
  {
    if x != [] && IsSpace(x[0]) {
      TrimStartKeepsPlain(x[1..]);
    }
  }

  /** A string that starts and ends with other characters is its own trim. */
  lemma {:induction false} TrimFixed(s: string)
    requires s != [] && !IsSpace(s[0]) && !IsSpace(s[|s| - 1])
    ensures Trim(s) == s
  {
  }

  lemma {:induction false} TrimmedIsTight(s: string)
    requires Trim(s) == s && s != []
    ensures !IsSpace(s[0]) && !IsSpace(s[|s| - 1])
  {
    TrimEndKeepsFirst(TrimStart(s));
    TrimStartShrinks(s);
  }

  lemma {:induction false} TrimStartShrinks(s: string)
    ensures |TrimStart(s)| <= |s|
    ensures s != [] && IsSpace(s[0]) ==> |TrimStart(s)| < |s|
  {
    if s != [] && IsSpace(s[0]) {
      TrimStartShrinks(s[1..]);
    }
  }

  lemma {:induction false} NothingBracketed(s: string)
    requires NoAngles(s)
    ensures Bracketed(s) == None
  {
    if s != [] {
      NothingBracketed(s[1..]);
    }
  }

  lemma {:induction false} PlainRunStops(a: string, rest: string)
    requires NoAngles(a)
    ensures PlainRun(a + ">" + rest) == |a|
  {
    if a != [] {
      PlainRunStops(a[1..], rest);
      assert (a + ">" + rest)[1..] == a[1..] + ">" + rest;
    }
  }

  lemma {:induction false} BracketedAfterName(name: string, a: string)
    requires NoAngles(name) && NoAngles(a) && a != []
    ensures Bracketed(name + "<" + a + ">") == Some(a)
  {
    var s := name + "<" + a + ">";
    if name == [] {
      assert s[1..] == a + ">" + "";
      PlainRunStops(a, "");
      assert s[1..1 + |a|] == a;
    } else {
      assert s[1..] == name[1..] + "<" + a + ">";
      assert s[0] == name[0];
      BracketedAfterName(name[1..], a);
    }
  }

  /** What a mail client may put around the address, as in section 3.4 of RFC 5322. */
  function NameAddr(name: string, address: string): string {
    name + " <" + address + ">"
  }

  predicate PlainDomain(domain: string) {
    NoAngles(domain) && Trim(domain) == domain
  }

  lemma {:induction false} UuidIsPlain(id: string)
    requires IsUuidV4(id)
    ensures NoAngles(id) && IsUuidV4(Lower(id))
  {
  }

  lemma {:induction false} BuiltText(id: string, domain: string)
    requires PlainDomain(domain)
    ensures BuildTicketReplyAddress(id, domain) == "ticket-" + Lower(id) + Suffix(domain)
  {
    LowerConcat("ticket-" + id + "@", domain);
    LowerConcat("ticket-" + id, "@");
    LowerConcat("ticket-", id);
    assert Lower("ticket-") == "ticket-" && Lower("@") == "@";
    assert "ticket-" + Lower(id) + "@" + Lower(domain) == "ticket-" + Lower(id) + ("@" + Lower(domain));
  }

  /** An address that starts and ends tightly, without angle brackets. */
  predicate TightAddress(s: string) {
    s != [] && NoAngles(s) && !IsSpace(s[0]) && !IsSpace(s[|s| - 1])
  }

  lemma {:induction false} RawIsTight(id: string, domain: string)
    requires IsUuidV4(id) && PlainDomain(domain)
    ensures TightAddress("ticket-" + id + "@" + domain)
  {
    var raw := "ticket-" + id + "@" + domain;
    UuidIsPlain(id);
    if domain != [] {
      TrimmedIsTight(domain);
      assert raw[|raw| - 1] == domain[|domain| - 1];
    }
  }

  lemma {:induction false} BuiltAddress(id: string, domain: string)
    requires IsUuidV4(id) && PlainDomain(domain)
    ensures var a := BuildTicketReplyAddress(id, domain);
            && a == "ticket-" + Lower(id) + Suffix(domain)
            && NoAngles(a) && a != [] && Trim(a) == a && Lower(a) == a
  {
    BuiltText(id, domain);
    RawIsTight(id, domain);
    LowerFacts("ticket-" + id + "@" + domain);
    TrimFixed(BuildTicketReplyAddress(id, domain));
  }

  lemma {:induction false} NormalizesBare(a: string)
    requires NoAngles(a) && Trim(a) == a && Lower(a) == a
    ensures NormalizeEmailAddress(a) == a
  {
    NothingBracketed(a);
  }

  lemma {:induction false} NormalizesNamed(name: string, a: string)
    requires NoAngles(name) && NoAngles(a) && a != [] && Trim(a) == a && Lower(a) == a
    ensures NormalizeEmailAddress(NameAddr(name, a)) == a
  {
    var tail := "<" + a + ">";
    var lead := TrimStart(name + " ");
    assert NameAddr(name, a) == name + " " + tail;
    TrimStartConcat(name + " ", tail);
    TrimStartKeepsPlain(name + " ");
    assert lead + tail == lead + "<" + a + ">";
    assert !IsSpace((lead + tail)[|lead + tail| - 1]);
    BracketedAfterName(lead, a);
  }

  /** The round trip: the reply address of ticket id, bare or after a name, among recipients the search
      passes over, gives back the lower-cased id - whatever comes after it. */
  lemma {:induction false} ReplyAddressRoundTrip(id: string, domain: string, name: string, before: seq<string>, after: seq<string>)
    requires IsUuidV4(id) && PlainDomain(domain) && NoAngles(name)
    requires forall r :: r in before ==> TicketIdOf(r, Suffix(domain)).None?
    ensures var a := BuildTicketReplyAddress(id, domain);
            && Extract(before + [a] + after, domain) == Some(Lower(id))
            && Extract(before + [NameAddr(name, a)] + after, domain) == Some(Lower(id))
  {
    var a := BuildTicketReplyAddress(id, domain);
    BuiltAddress(id, domain);
    UuidIsPlain(id);
    NormalizesBare(a);
    NormalizesNamed(name, a);
    AcceptsExactlyReplyAddresses(a, domain, Lower(id));
    AcceptsExactlyReplyAddresses(NameAddr(name, a), domain, Lower(id));
    FirstAfter(before, a, after, domain);
    FirstAfter(before, NameAddr(name, a), after, domain);
  }

  /** A recipient that names a ticket, after others that do not, decides. */
  lemma {:induction false} FirstAfter(before: seq<string>, r: string, after: seq<string>, domain: string)
    requires forall b :: b in before ==> TicketIdOf(b, Suffix(domain)).None?
    requires TicketIdOf(r, Suffix(domain)).Some?
    ensures Extract(before + [r] + after, domain) == TicketIdOf(r, Suffix(domain))
  {
    var all := before + [r] + after;
    assert all[|before|] == r;
    assert forall j :: 0 <= j < |before| ==> all[j] == before[j] && before[j] in before;
    FirstMatchIsExtract(all, domain, |before|);
  }
}
