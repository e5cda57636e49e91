/** Client order IDs: their parts, their printed form, and the parser. */
module ClientOrderIds {
  datatype Role = OptionLong | OptionShort | HedgeEntry | HedgeTp | HedgeStop | EmergencyClose

  function Token(role: Role): string {
    match role
    case OptionLong => "OL"
    case OptionShort => "OS"
    case HedgeEntry => "ENTRY"
    case HedgeTp => "TP"
    case HedgeStop => "STOP"
    case EmergencyClose => "EC"
  }

  datatype RoleLookup = NoRole | IsRole(role: Role)

  function RoleOf(token: string): RoleLookup {
    if token == "OL" then IsRole(OptionLong)
    else if token == "OS" then IsRole(OptionShort)
    else if token == "ENTRY" then IsRole(HedgeEntry)
    else if token == "TP" then IsRole(HedgeTp)
    else if token == "STOP" then IsRole(HedgeStop)
    else if token == "EC" then IsRole(EmergencyClose)
    else NoRole
  }

  lemma TokensAreCodes(role: Role, token: string)
    ensures RoleOf(Token(role)) == IsRole(role)
    ensures RoleOf(token).IsRole? ==> Token(RoleOf(token).role) == token
  {}

  // ----- character classes

  predicate IsDigit(c: char) {
    '0' <= c <= '9'
  }

  predicate IsAlphanumeric(c: char) {
    IsDigit(c) || 'A' <= c <= 'Z' || 'a' <= c <= 'z'
  }

  predicate IsHex(c: char) {
    IsDigit(c) || 'A' <= c <= 'F'
  }

  predicate All(member: char -> bool, s: string) {
    forall i | 0 <= i < |s| :: member(s[i])
  }

  predicate IsComponent(s: string) {
    1 <= |s| <= 4 && All(IsAlphanumeric, s)
  }

  predicate IsNonce(s: string) {
    4 <= |s| <= 6 && All(IsHex, s)
  }

  function UpperChar(c: char): char {
    if 'a' <= c <= 'z' then (c as int - 32) as char else c
  }

  function Upper(s: string): (r: string)
    ensures |r| == |s|
  {
    seq(|s|, i requires 0 <= i < |s| => UpperChar(s[i]))
  }

  // ----- fixed-width numbers

  function Pow10(width: nat): nat {
    if width == 0 then 1 else 10 * Pow10(width - 1)
  }

  function Digit(n: nat): char
    requires n < 10
  {
    ('0' as int + n) as char
  }

  /** The decimal digits of a number, padded with zeros to the width. */
  function Digits(n: nat, width: nat): (r: string)
    ensures |r| == width && All(IsDigit, r)
  {
    if width == 0 then "" else Digits(n / 10, width - 1) + [Digit(n % 10)]
  }

  function Number(s: string): nat
    requires All(IsDigit, s)
  {
    if |s| == 0 then 0 else 10 * Number(s[..|s| - 1]) + (s[|s| - 1] as int - '0' as int)
  }

  lemma {:induction false} NumberOfDigits(n: nat, width: nat)
    requires n < Pow10(width)
    ensures Number(Digits(n, width)) == n
  {
    if width > 0 {
      NumberOfDigits(n / 10, width - 1);
      var s := Digits(n, width);
      assert s[..|s| - 1] == Digits(n / 10, width - 1);
    }
  }

  lemma {:induction false} DigitsOfNumber(s: string)
    requires All(IsDigit, s)
    ensures Number(s) < Pow10(|s|) && Digits(Number(s), |s|) == s
  {
    if |s| > 0 {
      var last := |s| - 1;
      DigitsOfNumber(s[..last]);
      assert Number(s) / 10 == Number(s[..last]) && Number(s) % 10 == s[last] as int - '0' as int;
      assert s == s[..last] + [s[last]];
    }
  }

  // ----- fields separated by dashes

  predicate NoDash(s: string) {
    All(c => c != '-', s)
  }

  function Split(s: string): (r: seq<string>)
    ensures |r| > 0
  {
    if |s| == 0 then [""]
    else
      var rest := Split(s[1..]);
      if s[0] == '-' then [""] + rest else [[s[0]] + rest[0]] + rest[1..]
  }

  function Dashed(left: string, right: string): string {
    left + "-" + right
  }

  function Join(fields: seq<string>): string
    requires |fields| > 0
  {
    if |fields| == 1 then fields[0] else Dashed(fields[0], Join(fields[1..]))
  }

  lemma FirstFieldGrows(c: char, fields: seq<string>)
    requires |fields| > 0
    ensures Join([[c] + fields[0]] + fields[1..]) == [c] + Join(fields)
  {
    assert ([[c] + fields[0]] + fields[1..])[1..] == fields[1..];
    if |fields| > 1 { DashedGrows(c, fields[0], Join(fields[1..])); }
  }

  lemma DashedGrows(c: char, left: string, right: string)
    ensures Dashed([c] + left, right) == [c] + Dashed(left, right)
  {}

  lemma {:induction false} JoinOfSplit(s: string)
    ensures Join(Split(s)) == s
  {
    if |s| > 0 {
      JoinOfSplit(s[1..]);
      var rest := Split(s[1..]);
      if s[0] == '-' {
        assert ([""] + rest)[1..] == rest;
        assert s == Dashed("", s[1..]);
      } else {
        FirstFieldGrows(s[0], rest);
        assert s == [s[0]] + s[1..];
      }
    }
  }

  lemma {:induction false} SplitOfField(field: string)
    requires NoDash(field)
    ensures Split(field) == [field]
  {
    if |field| > 0 {
      SplitOfField(field[1..]);
      assert field == [field[0]] + field[1..];
    }
  }

  lemma {:induction false} SplitAfterField(field: string, rest: string)
    requires NoDash(field)
    ensures Split(Dashed(field, rest)) == [field] + Split(rest)
  {
    var s := Dashed(field, rest);
    if |field| == 0 {
      assert s[1..] == rest;
    } else {
      SplitAfterField(field[1..], rest);
      assert s[1..] == Dashed(field[1..], rest);
      assert field == [field[0]] + field[1..];
    }
  }

  lemma {:induction false} SplitOfJoin(fields: seq<string>)
    requires |fields| > 0 && forall i | 0 <= i < |fields| :: NoDash(fields[i])
    ensures Split(Join(fields)) == fields
  {
    if |fields| == 1 {
      SplitOfField(fields[0]);
    } else {
      SplitOfJoin(fields[1..]);
      SplitAfterField(fields[0], Join(fields[1..]));
    }
  }

  // ----- the ID

  datatype Parts = Parts(instance: string, cycle: int, level: int, role: Role, attempt: int, nonce: string)
  {
    predicate Valid() {
      && IsComponent(instance) && 0 <= cycle <= 9999 && 0 <= level <= 99 && 0 <= attempt <= 99
      && IsNonce(nonce)
    }
  }

  type ClientOrderId = p: Parts | p.Valid() witness Parts("A", 0, 0, OptionLong, 0, "0000")

  /** The text of an ID: ECH-instance-Ccycle-Llevel-token-Aattempt-nonce. */
  function Format(instance: string, cycle: string, level: string, token: string, attempt: string,
                  nonce: string): string {
    Dashed("ECH", Dashed(instance,
                         Dashed("C" + cycle, Dashed("L" + level, Dashed(token, Dashed("A" + attempt, nonce))))))
  }

  function Print(id: ClientOrderId): string {
    Format(id.instance, Digits(id.cycle, 4), Digits(id.level, 2), Token(id.role), Digits(id.attempt, 2), id.nonce)
  }

  function FieldsOf(id: ClientOrderId): seq<string> {
    ["ECH", id.instance, "C" + Digits(id.cycle, 4), "L" + Digits(id.level, 2), Token(id.role),
     "A" + Digits(id.attempt, 2), id.nonce]
  }

  datatype IdFault = BadInstance | BadCycle | BadLevel | BadAttempt | BadNonce | TooLong | NoMatch

  datatype Made = Id(id: ClientOrderId) | Fault(fault: IdFault)

  /** The constructor: the nonce is put in upper case, then everything is checked. */
  function Make(instance: string, cycle: int, level: int, role: Role, attempt: int, nonce: string): Made {
    if !IsComponent(instance) then Fault(BadInstance)
    else if !(0 <= cycle <= 9999) then Fault(BadCycle)
    else if !(0 <= level <= 99) then Fault(BadLevel)
    else if !(0 <= attempt <= 99) then Fault(BadAttempt)
    else if !IsNonce(Upper(nonce)) then Fault(BadNonce)
    else
      var id := Parts(instance, cycle, level, role, attempt, Upper(nonce));
      if |Print(id)| > 36 then Fault(TooLong) else Id(id)
  }

  /** A letter followed by exactly this many digits. */
  predicate IsNumbered(letter: char, width: nat, s: string) {
    |s| == width + 1 && s[0] == letter && All(IsDigit, s[1..])
  }

  predicate IsPrinted(f: seq<string>) {
    && |f| == 7 && f[0] == "ECH" && IsComponent(f[1]) && IsNumbered('C', 4, f[2]) && IsNumbered('L', 2, f[3])
    && RoleOf(f[4]).IsRole? && IsNumbered('A', 2, f[5]) && IsNonce(f[6])
  }

  function Parse(value: string): Made {
    var f := Split(value);
    if !IsPrinted(f) then Fault(NoMatch)
    else Make(f[1], Number(f[2][1..]), Number(f[3][1..]), RoleOf(f[4]).role, Number(f[5][1..]), f[6])
  }

  /** The pattern of an ID, as groups between literals. */
  ghost predicate Matches(value: string, instance: string, cycle: string, level: string, token: string, attempt: string,
                          nonce: string) {
    && IsComponent(instance) && |cycle| == 4 && All(IsDigit, cycle) && |level| == 2 && All(IsDigit, level)
    && RoleOf(token).IsRole? && |attempt| == 2 && All(IsDigit, attempt) && IsNonce(nonce)
    && value == Format(instance, cycle, level, token, attempt, nonce)
  }

  lemma UpperKeepsNonce(nonce: string)
    requires IsNonce(nonce)
    ensures Upper(nonce) == nonce
  {
    forall i | 0 <= i < |nonce| ensures Upper(nonce)[i] == nonce[i] { assert IsHex(nonce[i]); }
  }

  lemma WidthsHold()
    ensures Pow10(4) == 10000 && Pow10(2) == 100
  {
    assert Pow10(1) == 10 && Pow10(3) == 1000;
  }

  /** Every printed ID has at most 35 characters, so the length is never refused. */
  lemma PrintedIsShort(id: ClientOrderId)
    ensures |Print(id)| <= 35
    ensures Make(id.instance, id.cycle, id.level, id.role, id.attempt, id.nonce) == Id(id)
  {
    assert |Token(id.role)| <= 5;
    UpperKeepsNonce(id.nonce);
  }

  lemma LengthNeverRefuses(instance: string, cycle: int, level: int, role: Role, attempt: int, nonce: string)
    ensures Make(instance, cycle, level, role, attempt, nonce) != Fault(TooLong)
  {
    var id := Parts(instance, cycle, level, role, attempt, Upper(nonce));
    if id.Valid() { PrintedIsShort(id); }
  }

  /** The printed form is the fields joined by dashes. */
  lemma PrintJoins(instance: string, cycle: string, level: string, token: string, attempt: string, nonce: string)
    ensures Join(["ECH", instance, "C" + cycle, "L" + level, token, "A" + attempt, nonce])
            == Format(instance, cycle, level, token, attempt, nonce)
  {
    var f := ["ECH", instance, "C" + cycle, "L" + level, token, "A" + attempt, nonce];
    assert f[5..][1..] == [nonce] && Join(f[5..]) == Dashed(f[5], nonce);
    assert f[4..][1..] == f[5..] && Join(f[4..]) == Dashed(f[4], Join(f[5..]));
    assert f[3..][1..] == f[4..] && Join(f[3..]) == Dashed(f[3], Join(f[4..]));
    assert f[2..][1..] == f[3..] && Join(f[2..]) == Dashed(f[2], Join(f[3..]));
    assert f[1..][1..] == f[2..] && Join(f[1..]) == Dashed(f[1], Join(f[2..]));
  }

  lemma ClassesHaveNoDash(s: string)
    ensures IsComponent(s) || IsNonce(s) || All(IsDigit, s) || RoleOf(s).IsRole? ==> NoDash(s)
  {}

  lemma LetterHasNoDash(letter: char, digits: string)
    requires letter != '-' && All(IsDigit, digits)
    ensures NoDash([letter] + digits)
  {}

  /** What matches the pattern splits into the fields of the match. */
  lemma MatchSplits(value: string, instance: string, cycle: string, level: string, token: string, attempt: string,
                    nonce: string)
    requires Matches(value, instance, cycle, level, token, attempt, nonce)
    ensures Split(value) == ["ECH", instance, "C" + cycle, "L" + level, token, "A" + attempt, nonce]
  {
    PrintJoins(instance, cycle, level, token, attempt, nonce);
    ClassesHaveNoDash(instance);
    ClassesHaveNoDash(token);
    ClassesHaveNoDash(nonce);
    LetterHasNoDash('C', cycle);
    LetterHasNoDash('L', level);
    LetterHasNoDash('A', attempt);
    SplitOfJoin(["ECH", instance, "C" + cycle, "L" + level, token, "A" + attempt, nonce]);
  }

  lemma PrintMatches(id: ClientOrderId)
    ensures Matches(Print(id), id.instance, Digits(id.cycle, 4), Digits(id.level, 2), Token(id.role),
                    Digits(id.attempt, 2), id.nonce)
  {
    TokensAreCodes(id.role, "");
  }

  lemma SplitOfPrint(id: ClientOrderId)
    ensures Split(Print(id)) == FieldsOf(id)
  {
    PrintMatches(id);
    MatchSplits(Print(id), id.instance, Digits(id.cycle, 4), Digits(id.level, 2), Token(id.role),
                Digits(id.attempt, 2), id.nonce);
  }

  lemma NumberIsRead(letter: char, n: nat, width: nat)
    requires n < Pow10(width)
    ensures IsNumbered(letter, width, [letter] + Digits(n, width)) && Number(([letter] + Digits(n, width))[1..]) == n
  {
    assert ([letter] + Digits(n, width))[1..] == Digits(n, width);
    NumberOfDigits(n, width);
  }

  /** The fields of an ID are those of the pattern, and its parts are read off them. */
  lemma PartsAreRead(id: ClientOrderId)
    ensures var f := FieldsOf(id);
            && IsPrinted(f)
            && f[1] == id.instance && Number(f[2][1..]) == id.cycle && Number(f[3][1..]) == id.level
            && RoleOf(f[4]) == IsRole(id.role) && Number(f[5][1..]) == id.attempt && f[6] == id.nonce
  {
    WidthsHold();
    NumberIsRead('C', id.cycle, 4);
    NumberIsRead('L', id.level, 2);
    NumberIsRead('A', id.attempt, 2);
    TokensAreCodes(id.role, "");
  }

  /** Parsing a printed ID gives the ID back. */
  lemma ParseOfPrint(id: ClientOrderId)
    ensures Parse(Print(id)) == Id(id)
  {
    SplitOfPrint(id);
    PartsAreRead(id);
    PrintedIsShort(id);
  }

  /** The fifth field of a printed ID names the role. */
  lemma RoleIsPrinted(id: ClientOrderId)
    ensures |Split(Print(id))| == 7 && Split(Print(id))[0] == "ECH" && Split(Print(id))[1] == id.instance
    ensures var token := Split(Print(id))[4];
            && (id.role == OptionLong <==> token == "OL") && (id.role == OptionShort <==> token == "OS")
            && (id.role == HedgeEntry <==> token == "ENTRY") && (id.role == HedgeTp <==> token == "TP")
            && (id.role == HedgeStop <==> token == "STOP") && (id.role == EmergencyClose <==> token == "EC")
  {
    SplitOfPrint(id);
  }

  lemma NumberedIsPadded(letter: char, width: nat, s: string)
    requires IsNumbered(letter, width, s)
    ensures Number(s[1..]) < Pow10(width) && [letter] + Digits(Number(s[1..]), width) == s
  {
    DigitsOfNumber(s[1..]);
    assert s == [letter] + s[1..];
  }

  lemma PrintIsJoin(id: ClientOrderId)
    ensures Print(id) == Join(FieldsOf(id))
  {
    PrintJoins(id.instance, Digits(id.cycle, 4), Digits(id.level, 2), Token(id.role), Digits(id.attempt, 2), id.nonce);
  }

  /** The parts of an accepted string are read off its fields. */
  lemma PartsOfParse(value: string)
    requires Parse(value).Id?
    ensures var f, id := Split(value), Parse(value).id;
            && IsPrinted(f)
            && id.instance == f[1] && id.cycle == Number(f[2][1..]) && id.level == Number(f[3][1..])
            && id.role == RoleOf(f[4]).role && id.attempt == Number(f[5][1..]) && id.nonce == f[6]
  {
    UpperKeepsNonce(Split(value)[6]);
  }

  /** Printing the parts read off printed fields gives the fields back. */
  lemma FieldsOfParts(f: seq<string>, id: ClientOrderId)
    requires IsPrinted(f)
    requires id.instance == f[1] && id.cycle == Number(f[2][1..]) && id.level == Number(f[3][1..])
    requires id.role == RoleOf(f[4]).role && id.attempt == Number(f[5][1..]) && id.nonce == f[6]
    ensures FieldsOf(id) == f
  {
    NumberedIsPadded('C', 4, f[2]);
    NumberedIsPadded('L', 2, f[3]);
    NumberedIsPadded('A', 2, f[5]);
    TokensAreCodes(id.role, f[4]);
  }

  /** Whatever is accepted prints as itself. */
  lemma PrintOfParse(value: string)
    requires Parse(value).Id?
    ensures Print(Parse(value).id) == value
  {
    var f, id := Split(value), Parse(value).id;
    PartsOfParse(value);
    FieldsOfParts(f, id);
    PrintIsJoin(id);
    JoinOfSplit(value);
  }

  /** A string is accepted exactly when it matches the pattern, that is, exactly
      when it is the printed form of an ID. */
  lemma AcceptsExactlyThePattern(value: string)
    ensures Parse(value).Id? <==> exists instance, cycle, level, token, attempt, nonce ::
              Matches(value, instance, cycle, level, token, attempt, nonce)
    ensures Parse(value).Id? <==> exists id: ClientOrderId :: Print(id) == value
  {
    if Parse(value).Id? {
      var id := Parse(value).id;
      PrintOfParse(value);
      PrintMatches(id);
    }
    if id: ClientOrderId :| Print(id) == value {
      ParseOfPrint(id);
    }
    forall instance, cycle, level, token, attempt, nonce | Matches(value, instance, cycle, level, token, attempt, nonce)
      ensures Parse(value).Id?
    {
      MatchIsAccepted(value, instance, cycle, level, token, attempt, nonce);
    }
  }

  lemma MatchIsAccepted(value: string, instance: string, cycle: string, level: string, token: string, attempt: string,
                        nonce: string)
    requires Matches(value, instance, cycle, level, token, attempt, nonce)
    ensures Parse(value).Id?
  {
    MatchSplits(value, instance, cycle, level, token, attempt, nonce);
    assert ("C" + cycle)[1..] == cycle && ("L" + level)[1..] == level && ("A" + attempt)[1..] == attempt;
    WidthsHold();
    DigitsOfNumber(cycle);
    DigitsOfNumber(level);
    DigitsOfNumber(attempt);
    UpperKeepsNonce(nonce);
    LengthNeverRefuses(instance, Number(cycle), Number(level), RoleOf(token).role, Number(attempt), nonce);
  }

  /** Different IDs print differently. */
  lemma PrintIsInjective(a: ClientOrderId, b: ClientOrderId)
    requires Print(a) == Print(b)
    ensures a == b
  {
    ParseOfPrint(a);
    ParseOfPrint(b);
  }
}
