/**
  The client's prompt router: free text in, an `Intent` out. The router
  lower-cases and trims the text, picks a chain by keyword, picks one of six
  actions by a fixed priority of keyword tests, and for two of the actions
  extracts an address or a number from the text.

  `Parse` is the reference definition of the intent, written as "first
  match" searches over fixed tables; `Route` adds the `ValueError` that
  `int()` raises on too long a number. `ParsePrompt` follows the router step
  by step (its two search loops and its chain of guarded returns) and is
  proved equal to `Route`.
*/
module IntentRouter {
  import opened Wrappers
  import opened Text

  /** The six actions the router can produce. */
  datatype Action = NewWallet | GetBalance | DeploySimpleStorage | SetStorage | ReadStorage | Unknown

  /** The router's result record. `args` is part of the record but the router
      never fills it (its element type is left open by the record; any will do). */
  datatype Intent = Intent(
    action: Action,
    chain: Option<string>,
    address: Option<string>,
    value: Option<int>,
    args: Option<seq<int>>)

  /** The chain keywords, in the order they are tried. */
  const ChainNames: seq<string> := ["celo", "aurora", "harmony"]

  /** A rule fires when every keyword of one of its alternatives occurs. */
  datatype Rule = Rule(action: Action, alternatives: seq<seq<string>>)

  /** The action rules, in priority order; no rule firing means `Unknown`. */
  const ActionRules: seq<Rule> := [
    Rule(NewWallet, [["new wallet"], ["create wallet"]]),
    Rule(GetBalance, [["balance"], ["check my money"]]),
    Rule(DeploySimpleStorage, [["deploy", "storage"]]),
    Rule(SetStorage, [["set value"], ["set storage"]]),
    Rule(ReadStorage, [["read"], ["get value"]])
  ]

  /** Index of the first element satisfying `p`, or |xs| when none does. */
  function FirstIndex<T>(xs: seq<T>, p: T -> bool): (i: nat)
    ensures i <= |xs|
    ensures forall k :: 0 <= k < i ==> !p(xs[k])
    ensures i < |xs| ==> p(xs[i])
  {
    if xs == [] || p(xs[0]) then 0 else 1 + FirstIndex(xs[1..], p)
  }

  /** The first-match index is the only index with the first-match property. */
  lemma FirstIndexUnique<T>(xs: seq<T>, p: T -> bool, i: nat)
    requires i <= |xs|
    requires forall k :: 0 <= k < i ==> !p(xs[k])
    requires i < |xs| ==> p(xs[i])
    ensures FirstIndex(xs, p) == i
  {
  }

  predicate Fires(rule: Rule, t: string) {
    exists a :: 0 <= a < |rule.alternatives| &&
      forall k :: 0 <= k < |rule.alternatives[a]| ==> Contains(t, rule.alternatives[a][k])
  }

  function ChainIndex(t: string): (i: nat)
    ensures i <= |ChainNames|
    ensures forall k :: 0 <= k < i ==> !Contains(t, ChainNames[k])
    ensures i < |ChainNames| ==> Contains(t, ChainNames[i])
  {
    FirstIndex(ChainNames, c => Contains(t, c))
  }

  /** The chain named in normalised text `t`: the first keyword that occurs. */
  function ChainOf(t: string): Option<string> {
    var i := ChainIndex(t);
    if i < |ChainNames| then Some(ChainNames[i]) else None
  }

  function RuleIndex(t: string): (i: nat)
    ensures i <= |ActionRules|
    ensures forall k :: 0 <= k < i ==> !Fires(ActionRules[k], t)
    ensures i < |ActionRules| ==> Fires(ActionRules[i], t)
  {
    FirstIndex(ActionRules, r => Fires(r, t))
  }

  /** The action for normalised text `t`: that of the first rule that fires. */
  function ActionOf(t: string): Action {
    var i := RuleIndex(t);
    if i < |ActionRules| then ActionRules[i].action else Unknown
  }

  /** A token the router accepts as an address. */
  predicate LooksLikeAddress(w: string) {
    "0x" <= w && |w| > 20
  }

  /** The first whitespace-separated token of `t` that looks like an address. */
  function AddressOf(t: string): Option<string> {
    var ws := Words(t);
    var i := FirstIndex(ws, LooksLikeAddress);
    if i < |ws| then Some(ws[i]) else None
  }

  /** The leftmost maximal run of digits in `t`, as `re.search(r'(\d+)', t)`
      finds it. */
  function FirstDigitRun(t: string): (m: Option<string>)
    ensures m.None? <==> forall k :: 0 <= k < |t| ==> !IsDigit(t[k])
    ensures m.Some? ==> m.value != [] && AllDigits(m.value)
    ensures m.Some? ==> exists i, j :: FirstRunAt(t, i, j) && m.value == t[i..j]
  {
    var i := DigitRunStart(t);
    if i == |t| then None
    else
      var j := DigitRunEnd(t, i);
      assert FirstRunAt(t, i, j);
      Some(t[i..j])
  }

  /** The number a storage-setting prompt carries: the first digit run read
      as a decimal, 0 when there is none. */
  function StorageValue(t: string): nat {
    match FirstDigitRun(t)
    case Some(d) => DecimalValue(d)
    case None => 0
  }

  /** The storage write's number is too long for `int()`, which raises
      `ValueError` on it. */
  predicate ValueTooLong(t: string) {
    FirstDigitRun(t).Some? && |FirstDigitRun(t).value| > MaxStrDigits
  }

  /** The router's whole outcome: the intent `Parse` describes, unless the
      prompt is a storage write whose number has more digits than `int()`
      accepts, in which case the router raises. */
  function Route(text: string): (r: Result<Intent, IntError>)
    ensures r.Ok? ==> r.value == Parse(text)
    ensures r.Err? <==> Parse(text).action == SetStorage && ValueTooLong(Normalize(text))
    ensures r.Err? ==> r.error == TooManyDigits(|FirstDigitRun(Normalize(text)).value|)
  {
    var t := Normalize(text);
    if ActionOf(t) == SetStorage && ValueTooLong(t)
    then Err(TooManyDigits(|FirstDigitRun(t).value|))
    else Ok(Parse(text))
  }

  /** The intent the router builds when it returns. */
  function Parse(text: string): Intent {
    var t := Normalize(text);
    var action := ActionOf(t);
    Intent(action, ChainOf(t),
      if action == GetBalance then AddressOf(t) else None,
      if action == SetStorage then Some(StorageValue(t)) else None,
      None)
  }

  /** The chain search of the router: try the keywords in order, stop at the
      first that occurs. */
  method FindChain(t: string) returns (chain: Option<string>)
    ensures chain == ChainOf(t)
  {
    chain := None;
    var i := 0;
    while i < |ChainNames|
      invariant 0 <= i <= |ChainNames|
      invariant chain == None
      invariant forall k :: 0 <= k < i ==> !Contains(t, ChainNames[k])
    {
      if Contains(t, ChainNames[i]) {
        chain := Some(ChainNames[i]);
        break;
      }
      i := i + 1;
    }
    FirstIndexUnique(ChainNames, c => Contains(t, c), i);
  }

  /** The address search of the router: the first token that starts with
      "0x" and is longer than 20 characters. */
  method FindAddress(t: string) returns (addr: Option<string>)
    ensures addr == AddressOf(t)
  {
    addr := None;
    var words := Words(t);
    var k := 0;
    while k < |words|
      invariant 0 <= k <= |words|
      invariant addr == None
      invariant forall m :: 0 <= m < k ==> !LooksLikeAddress(words[m])
    {
      if "0x" <= words[k] && |words[k]| > 20 {
        addr := Some(words[k]);
        break;
      }
      k := k + 1;
    }
    FirstIndexUnique(words, LooksLikeAddress, k);
  }

  /** The number of a storage write: `int()` of the first digit run, 0 when
      there is none; `int()` raises on a run of more than 4300 digits. */
  method ReadValue(t: string) returns (r: Result<nat, IntError>)
    ensures r.Ok? <==> !ValueTooLong(t)
    ensures r.Ok? ==> r.value == StorageValue(t)
    ensures r.Err? ==> r.error == TooManyDigits(|FirstDigitRun(t).value|)
  {
    var m := FirstDigitRun(t);
    if m.None? {
      return Ok(0);
    }
    r := IntOfDigits(m.value);
  }

  /** The router as it runs: normalise, search for the chain, then a chain of
      guarded returns for the action. */
  method ParsePrompt(text: string) returns (r: Result<Intent, IntError>)
    ensures r == Route(text)
  {
    var t := Normalize(text);
    var chain := FindChain(t);

    if Contains(t, "new wallet") || Contains(t, "create wallet") {
      assert ActionOf(t) == NewWallet by { KeywordPriority(t); }
      return Ok(Intent(NewWallet, chain, None, None, None));
    }
    if Contains(t, "balance") || Contains(t, "check my money") {
      assert ActionOf(t) == GetBalance by { KeywordPriority(t); }
      var addr := FindAddress(t);
      return Ok(Intent(GetBalance, chain, addr, None, None));
    }
    if Contains(t, "deploy") && Contains(t, "storage") {
      assert ActionOf(t) == DeploySimpleStorage by { KeywordPriority(t); }
      return Ok(Intent(DeploySimpleStorage, chain, None, None, None));
    }
    if Contains(t, "set value") || Contains(t, "set storage") {
      assert ActionOf(t) == SetStorage by { KeywordPriority(t); }
      var val := ReadValue(t);
      if val.Err? {
        return Err(val.error);
      }
      return Ok(Intent(SetStorage, chain, None, Some(val.value), None));
    }
    if Contains(t, "read") || Contains(t, "get value") {
      assert ActionOf(t) == ReadStorage by { KeywordPriority(t); }
      return Ok(Intent(ReadStorage, chain, None, None, None));
    }
    assert ActionOf(t) == Unknown by { KeywordPriority(t); }
    return Ok(Intent(Unknown, chain, None, None, None));
  }

  /** A rule with two one-keyword alternatives fires when either keyword occurs. */
  lemma FiresEither(rule: Rule, t: string, a: string, b: string)
    requires rule.alternatives == [[a], [b]]
    ensures Fires(rule, t) <==> Contains(t, a) || Contains(t, b)
  {
    assert rule.alternatives[0][0] == a;
    assert rule.alternatives[1][0] == b;
  }

  /** A rule with one two-keyword alternative fires when both keywords occur. */
  lemma FiresBoth(rule: Rule, t: string, a: string, b: string)
    requires rule.alternatives == [[a, b]]
    ensures Fires(rule, t) <==> Contains(t, a) && Contains(t, b)
  {
    var alt := rule.alternatives[0];
    assert alt[0] == a && alt[1] == b;
    if Contains(t, a) && Contains(t, b) {
      assert forall k :: 0 <= k < |alt| ==> Contains(t, alt[k]);
    }
  }

  /** The rule table means the priority chain of keyword tests: an earlier
      test wins whatever later keywords also occur. */
  lemma KeywordPriority(t: string)
    ensures ActionOf(t) ==
      if Contains(t, "new wallet") || Contains(t, "create wallet") then NewWallet
      else if Contains(t, "balance") || Contains(t, "check my money") then GetBalance
      else if Contains(t, "deploy") && Contains(t, "storage") then DeploySimpleStorage
      else if Contains(t, "set value") || Contains(t, "set storage") then SetStorage
      else if Contains(t, "read") || Contains(t, "get value") then ReadStorage
      else Unknown
  {
    var rs := ActionRules;
    FiresEither(rs[0], t, "new wallet", "create wallet");
    FiresEither(rs[1], t, "balance", "check my money");
    FiresBoth(rs[2], t, "deploy", "storage");
    FiresEither(rs[3], t, "set value", "set storage");
    FiresEither(rs[4], t, "read", "get value");
  }

  /** The router reads only the lower-cased, trimmed text: normalising the
      prompt first changes nothing. */
  lemma ParseIgnoresCaseAndEdges(text: string)
    ensures Parse(Normalize(text)) == Parse(text)
    ensures Route(Normalize(text)) == Route(text)
  {
    NormalizeIdempotent(text);
  }

  /** Every intent carries the chain of the first keyword, in the order
      celo, aurora, harmony, that occurs in the normalised text, whatever
      the action; none when no keyword occurs. */
  lemma ParseChain(text: string)
    ensures var t := Normalize(text); var c := Parse(text).chain;
      && (c == Some("celo") <==> Contains(t, "celo"))
      && (c == Some("aurora") <==> !Contains(t, "celo") && Contains(t, "aurora"))
      && (c == Some("harmony") <==> !Contains(t, "celo") && !Contains(t, "aurora") && Contains(t, "harmony"))
      && (c == None <==> !Contains(t, "celo") && !Contains(t, "aurora") && !Contains(t, "harmony"))
  {
    var t := Normalize(text);
    ParseParts(text);
    ChainOrder(t);
  }

  /** The chain search over the keyword table, spelled out. */
  lemma ChainOrder(t: string)
    ensures var c := ChainOf(t);
      && (c == Some("celo") <==> Contains(t, "celo"))
      && (c == Some("aurora") <==> !Contains(t, "celo") && Contains(t, "aurora"))
      && (c == Some("harmony") <==> !Contains(t, "celo") && !Contains(t, "aurora") && Contains(t, "harmony"))
      && (c == None <==> !Contains(t, "celo") && !Contains(t, "aurora") && !Contains(t, "harmony"))
  {
    var i := ChainIndex(t);
    assert ChainNames[0] == "celo" && ChainNames[1] == "aurora" && ChainNames[2] == "harmony";
  }

  /** `Parse` assembled from its parts on the normalised text. */
  lemma ParseParts(text: string)
    ensures var t := Normalize(text); var r := Parse(text);
      && r.chain == ChainOf(t)
      && r.action == ActionOf(t)
      && r.address == (if r.action == GetBalance then AddressOf(t) else None)
      && r.value == (if r.action == SetStorage then Some(StorageValue(t)) else None)
      && r.args == None
  {
  }

  /** The action follows the fixed priority of keyword tests on the
      normalised text. */
  lemma ParseAction(text: string)
    ensures var t := Normalize(text);
      Parse(text).action ==
        if Contains(t, "new wallet") || Contains(t, "create wallet") then NewWallet
        else if Contains(t, "balance") || Contains(t, "check my money") then GetBalance
        else if Contains(t, "deploy") && Contains(t, "storage") then DeploySimpleStorage
        else if Contains(t, "set value") || Contains(t, "set storage") then SetStorage
        else if Contains(t, "read") || Contains(t, "get value") then ReadStorage
        else Unknown
  {
    KeywordPriority(Normalize(text));
  }

  /** Only a balance query carries an address, only a storage write carries a
      value (always one, never negative), and `args` is never set. */
  lemma ParseFieldsByAction(text: string)
    ensures Parse(text).args == None
    ensures Parse(text).address.Some? ==> Parse(text).action == GetBalance
    ensures Parse(text).value.Some? <==> Parse(text).action == SetStorage
    ensures Parse(text).value.Some? ==> Parse(text).value.value >= 0
  {
  }

  /** A balance query's address is the first whitespace-separated token of the
      normalised text that starts with "0x" and is longer than 20 characters;
      it is a piece of that text without whitespace. There is none exactly
      when no token qualifies. */
  lemma ParseAddress(text: string)
    requires Parse(text).action == GetBalance
    ensures var t := Normalize(text); var ws := Words(t); var a := Parse(text).address;
      && (a == None <==> forall k :: 0 <= k < |ws| ==> !LooksLikeAddress(ws[k]))
      && (a.Some? ==> exists k :: 0 <= k < |ws| && ws[k] == a.value &&
                        forall m :: 0 <= m < k ==> !LooksLikeAddress(ws[m]))
      && (a.Some? ==> "0x" <= a.value && |a.value| > 20 && NoSpace(a.value) && Contains(t, a.value))
  {
    var t := Normalize(text);
    assert Parse(text).address == AddressOf(t);
    AddressIsFirstToken(t);
  }

  /** The address search, stated on the text it searches. */
  lemma AddressIsFirstToken(t: string)
    ensures var ws := Words(t); var a := AddressOf(t);
      && (a == None <==> forall k :: 0 <= k < |ws| ==> !LooksLikeAddress(ws[k]))
      && (a.Some? ==> exists k :: 0 <= k < |ws| && ws[k] == a.value &&
                        forall m :: 0 <= m < k ==> !LooksLikeAddress(ws[m]))
      && (a.Some? ==> "0x" <= a.value && |a.value| > 20 && NoSpace(a.value) && Contains(t, a.value))
  {
    var ws := Words(t);
    var i := FirstIndex(ws, LooksLikeAddress);
    if i < |ws| {
      assert AddressOf(t) == Some(ws[i]);
      assert LooksLikeAddress(ws[i]);
      assert ws[i] != [] && NoSpace(ws[i]) && Contains(t, ws[i]);
      assert forall m :: 0 <= m < i ==> !LooksLikeAddress(ws[m]);
    } else {
      assert AddressOf(t) == None;
    }
  }

  /** `v` is the number `re.search(r'(\d+)', t)` and `int()` read from `t`: 0
      when `t` has no digit, otherwise the base-10 value of its leftmost
      maximal digit run. */
  ghost predicate IsFirstRunValue(t: string, v: int) {
    && ((forall k :: 0 <= k < |t| ==> !IsDigit(t[k])) ==> v == 0)
    && (forall i, j :: FirstRunAt(t, i, j) ==> v == DecimalValue(t[i..j]))
  }

  /** The value a storage-setting prompt carries is the leftmost maximal run
      of digits read in base 10, or 0 when the text has no digit. */
  lemma StorageValueIsFirstRun(t: string)
    ensures (forall k :: 0 <= k < |t| ==> !IsDigit(t[k])) ==> StorageValue(t) == 0
    ensures forall i, j :: FirstRunAt(t, i, j) ==> StorageValue(t) == DecimalValue(t[i..j])
  {
    forall i, j | FirstRunAt(t, i, j)
      ensures StorageValue(t) == DecimalValue(t[i..j])
    {
      DigitRunUnique(t, i, j);
    }
  }

  /** A storage write carries the value of the leftmost maximal digit run of
      the normalised text, 0 when there is none. */
  lemma ParseValue(text: string)
    requires Parse(text).action == SetStorage
    ensures Parse(text).value.Some? && IsFirstRunValue(Normalize(text), Parse(text).value.value)
  {
    var t := Normalize(text);
    assert Parse(text).value == Some(StorageValue(t)) by { ParseParts(text); }
    StorageValueIsFirstRun(t);
  }

  /** "set value N" yields a storage write of N with no chain, or the
      `ValueError` of `int()` when N has more than 4300 digits. */
  lemma SetValuePrompt(n: nat)
    ensures Route("set value " + DecimalString(n)) ==
      if |DecimalString(n)| <= MaxStrDigits
      then Ok(Intent(SetStorage, None, None, Some(n), None))
      else Err(TooManyDigits(|DecimalString(n)|))
  {
    SetValueDigitsPrompt(DecimalString(n));
    DecimalRoundTrip(n);
  }

  /** "set value " followed by digits yields a storage write of their value,
      or the `ValueError` of `int()` when there are too many of them. */
  lemma SetValueDigitsPrompt(d: string)
    requires d != [] && AllDigits(d)
    ensures Route("set value " + d) ==
      if |d| <= MaxStrDigits
      then Ok(Intent(SetStorage, None, None, Some(DecimalValue(d)), None))
      else Err(TooManyDigits(|d|))
  {
    var s := "set value " + d;
    SetValueIsNormal(d);
    SetValueKeywords(d);
    SetValueDigits(d);
    StorageWriteOfRun(s, d);
  }

  /** `StorageWritePrompt` for a prompt naming no chain whose first number
      is the digit string `d`, stated on the text before normalisation. */
  lemma StorageWriteOfRun(text: string, d: string)
    requires var t := Normalize(text);
      && FirstDigitRun(t) == Some(d)
      && !Contains(t, "celo") && !Contains(t, "aurora") && !Contains(t, "harmony")
      && !Contains(t, "new wallet") && !Contains(t, "create wallet")
      && !Contains(t, "balance") && !Contains(t, "check my money")
      && !Contains(t, "deploy") && Contains(t, "set value")
    ensures Route(text) ==
      if |d| <= MaxStrDigits
      then Ok(Intent(SetStorage, None, None, Some(DecimalValue(d)), None))
      else Err(TooManyDigits(|d|))
  {
    var t := Normalize(text);
    assert ActionOf(t) == SetStorage by { KeywordPriority(t); }
    assert ChainOf(t) == None by { ChainOrder(t); }
    RouteOfRun(text, d);
  }

  /** The outcome of a storage write naming no chain whose first number is
      the digit string `d`. */
  lemma RouteOfRun(text: string, d: string)
    requires var t := Normalize(text);
      ActionOf(t) == SetStorage && ChainOf(t) == None && FirstDigitRun(t) == Some(d)
    ensures Route(text) ==
      if |d| <= MaxStrDigits
      then Ok(Intent(SetStorage, None, None, Some(DecimalValue(d)), None))
      else Err(TooManyDigits(|d|))
  {
    var t := Normalize(text);
    assert Parse(text) == Intent(SetStorage, None, None, Some(DecimalValue(d)), None);
    if |d| <= MaxStrDigits {
      assert !ValueTooLong(t);
    }
  }

  /** A normal-form prompt that asks for none of the actions ranked above a
      storage write and asks to set a value or the storage is a storage write
      of its first number, on the chain it names; the router raises instead
      when that number is too long for `int()`. */
  lemma StorageWritePrompt(t: string, v: nat)
    requires Normalize(t) == t && StorageValue(t) == v
    requires !Contains(t, "new wallet") && !Contains(t, "create wallet")
    requires !Contains(t, "balance") && !Contains(t, "check my money")
    requires !(Contains(t, "deploy") && Contains(t, "storage"))
    requires Contains(t, "set value") || Contains(t, "set storage")
    ensures Parse(t) == Intent(SetStorage, ChainOf(t), None, Some(v), None)
    ensures Route(t) ==
      if ValueTooLong(t) then Err(TooManyDigits(|FirstDigitRun(t).value|))
      else Ok(Intent(SetStorage, ChainOf(t), None, Some(v), None))
  {
    assert ActionOf(t) == SetStorage by { KeywordPriority(t); }
    ParseOfNormalText(t);
  }

  /** On text already in normal form, `Parse` reads the parts off the text. */
  lemma ParseOfNormalText(t: string)
    requires Normalize(t) == t
    ensures Parse(t) == Intent(ActionOf(t), ChainOf(t),
      if ActionOf(t) == GetBalance then AddressOf(t) else None,
      if ActionOf(t) == SetStorage then Some(StorageValue(t)) else None,
      None)
  {
  }

  lemma SetValueIsNormal(d: string)
    requires d != [] && AllDigits(d)
    ensures Normalize("set value " + d) == "set value " + d
  {
    var s := "set value " + d;
    assert IsLowered(s);
    LowerFixesLowered(s);
    assert !IsSpace(s[0]) && IsDigit(s[|s| - 1]);
    assert Strip(s) == s;
  }

  lemma SetValueKeywords(d: string)
    requires AllDigits(d)
    ensures var s := "set value " + d;
      && !Contains(s, "celo") && !Contains(s, "aurora") && !Contains(s, "harmony")
      && !Contains(s, "new wallet") && !Contains(s, "create wallet")
      && !Contains(s, "balance") && !Contains(s, "check my money")
      && !Contains(s, "deploy") && Contains(s, "set value")
  {
    var p := "set value ";
    var s := p + d;
    forall c | c in "nbcdhr"
      ensures c !in s
    {
      assert c !in p;
      assert forall k :: 0 <= k < |d| ==> d[k] != c;
    }
    MissingCharNotContained(s, "celo", 0);
    MissingCharNotContained(s, "aurora", 2);
    MissingCharNotContained(s, "harmony", 0);
    MissingCharNotContained(s, "new wallet", 0);
    MissingCharNotContained(s, "create wallet", 0);
    MissingCharNotContained(s, "balance", 0);
    MissingCharNotContained(s, "check my money", 0);
    MissingCharNotContained(s, "deploy", 0);
    assert "set value" <= s;
  }

  lemma SetValueDigits(d: string)
    requires d != [] && AllDigits(d)
    ensures FirstDigitRun("set value " + d) == Some(d)
    ensures StorageValue("set value " + d) == DecimalValue(d)
  {
    var p := "set value ";
    var s := p + d;
    assert s[..|p|] == p && s[|p|..] == d;
    assert forall k :: 0 <= k < |p| ==> !IsDigit(s[k]) by {
      forall k | 0 <= k < |p| ensures !IsDigit(s[k]) {
        assert s[k] == p[k];
      }
    }
    assert forall k :: |p| <= k < |s| ==> IsDigit(s[k]) by {
      forall k | |p| <= k < |s| ensures IsDigit(s[k]) {
        assert s[k] == d[k - |p|];
      }
    }
    DigitRunUnique(s, |p|, |s|);
    assert s[|p|..|s|] == d;
  }
}
