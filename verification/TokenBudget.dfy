/** Token estimates of text, and keeping the most recent user input within a budget.
    A string is a sequence of code points, so its UTF-8 form is always valid. */
module TokenBudget {
  import opened Texts

  /** Bytes of a code point in UTF-8. */
  function Width(c: char): (w: nat)
    ensures 1 <= w <= 4
  {
    var n := c as int;
    if n < 0x80 then 1 else if n < 0x800 then 2 else if n < 0x10000 then 3 else 4
  }

  function Bytes(s: string): nat { if s == "" then 0 else Width(s[0]) + Bytes(s[1..]) }

  function Ascii(s: string): (n: nat)
    ensures n <= |s|
  {
    if s == "" then 0 else (if Width(s[0]) == 1 then 1 else 0) + Ascii(s[1..]) }

  /** Four ASCII bytes make one token, and every other code point makes one. */
  function Tokens(s: string): nat { (Ascii(s) + 3) / 4 + (|s| - Ascii(s)) }

  function Total(ss: seq<string>): nat { if ss == [] then 0 else Total(ss[..|ss| - 1]) + Tokens(ss[|ss| - 1]) }

  method EstimateTextTokens(value: string) returns (tokens: nat)
    ensures tokens == Tokens(value)
  {
    if value == "" {
      return 0;
    }
    var asciiBytes, nonAscii := 0, 0;
    for i := 0 to |value|
      invariant asciiBytes + Ascii(value[i..]) == Ascii(value)
      invariant asciiBytes + nonAscii == i
    {
      if value[i] as int <= 0x7f {
        asciiBytes := asciiBytes + 1;
      } else {
        nonAscii := nonAscii + 1;
      }
      assert value[i..][0] == value[i] && value[i..][1..] == value[i + 1..];
    }
    tokens := (asciiBytes + 3) / 4 + nonAscii;
  }

  // -------------------------------------------------------------------- truncation

  /** The longest prefix of at most max bytes. */
  function Truncated(s: string, max: nat): (t: string)
    ensures t <= s && Bytes(t) <= max
    ensures |t| < |s| ==> Bytes(t) + Width(s[|t|]) > max
  {
    if s == "" || Width(s[0]) > max then ""
    else
      var t := Truncated(s[1..], max - Width(s[0]));
      assert ([s[0]] + t)[1..] == t;
      [s[0]] + t
  }

  lemma {:induction false} TruncatedWhole(s: string, max: nat)
    ensures Truncated(s, max) == s <==> Bytes(s) <= max
  {
    if s != "" {
      assert s == [s[0]] + s[1..];
      if Width(s[0]) <= max { TruncatedWhole(s[1..], max - Width(s[0])); }
    }
  }

  /** Byte offset n falls between two code points. */
  predicate Boundary(s: string, n: nat) {
    n == 0 || (s != "" && n >= Width(s[0]) && Boundary(s[1..], n - Width(s[0])))
  }

  function Upto(s: string, n: nat): (t: string)
    requires Boundary(s, n)
    ensures t <= s && Bytes(t) == n
  {
    if n == 0 then ""
    else
      var t := Upto(s[1..], n - Width(s[0]));
      assert ([s[0]] + t)[1..] == t;
      [s[0]] + t
  }

  lemma {:induction false} LastBoundary(s: string, n: nat, max: nat)
    requires n <= max && Boundary(s, n) && forall k: nat | n < k <= max :: !Boundary(s, k)
    ensures Upto(s, n) == Truncated(s, max)
  {
    if s != "" && Width(s[0]) <= max {
      assert Boundary(s, Width(s[0])) by { assert Boundary(s[1..], 0); }
      var w := Width(s[0]);
      forall k: nat | n - w < k <= max - w ensures !Boundary(s[1..], k) { assert !Boundary(s, k + w); }
      LastBoundary(s[1..], n - w, max - w);
    }
  }

  /** Cuts at maximumBytes and backs up to the end of a code point. */
  method TruncateUtf8(value: string, maximumBytes: nat) returns (r: string)
    ensures r == Truncated(value, maximumBytes)
  {
    TruncatedWhole(value, maximumBytes);
    if Bytes(value) <= maximumBytes {
      return value;
    }
    var end: nat := maximumBytes;
    while end > 0 && !Boundary(value, end)
      invariant end <= maximumBytes && forall k: nat | end < k <= maximumBytes :: !Boundary(value, k)
    {
      end := end - 1;
    }
    LastBoundary(value, end, maximumBytes);
    r := Upto(value, end);
  }

  // ----------------------------------------------------------------- recent inputs

  const MAXIMUM_RETAINED_USER_TOKENS := 20_000

  function Fitted(s: string, budget: nat): string {
    if Tokens(s) > budget then Truncated(s, budget * 4) else s
  }

  /** The inputs from the latest back, while any budget remains. */
  function Recent(messages: seq<string>, budget: int): seq<string> {
    if messages == [] || budget <= 0 then []
    else
      var last := Fitted(messages[|messages| - 1], budget);
      Recent(messages[..|messages| - 1], budget - Tokens(last)) + [last]
  }

  method RetainRecentUserInput(messages: seq<string>, maximumTokens: int) returns (r: seq<string>)
    ensures r == Recent(messages, maximumTokens)
  {
    var remaining := maximumTokens;
    var result: seq<string> := [];
    var index := |messages| - 1;
    ghost var whole := Recent(messages, maximumTokens);
    assert messages[..index + 1] == messages && whole + [] == whole && Backwards(result) == [];
    while index >= 0 && remaining > 0
      invariant -1 <= index < |messages|
      invariant whole == Recent(messages[..index + 1], remaining) + Backwards(result)
    {
      var content := messages[index];
      var tokens := EstimateTextTokens(content);
      if tokens > remaining {
        content := TruncateUtf8(content, remaining * 4);
        tokens := EstimateTextTokens(content);
      }
      RecentStep(whole, messages, index, remaining, result);
      result := result + [content];
      remaining := remaining - tokens;
      index := index - 1;
    }
    NothingLeft(messages[..index + 1], remaining, Backwards(result));
    r := Reverse(result);
  }

  lemma NothingLeft(messages: seq<string>, budget: int, rest: seq<string>)
    requires messages == [] || budget <= 0
    ensures Recent(messages, budget) + rest == rest
  {
  }

  lemma RecentStep(whole: seq<string>, messages: seq<string>, index: nat, remaining: int, result: seq<string>)
    requires index < |messages| && remaining > 0
    requires whole == Recent(messages[..index + 1], remaining) + Backwards(result)
    ensures var content := Fitted(messages[index], remaining);
            whole == Recent(messages[..index], remaining - Tokens(content)) + Backwards(result + [content])
  {
    var content := Fitted(messages[index], remaining);
    assert messages[..index + 1][..index] == messages[..index];
    BackwardsSnoc(result, content);
    Regroup(Recent(messages[..index], remaining - Tokens(content)), [content], Backwards(result));
  }

  function Backwards<T>(s: seq<T>): (r: seq<T>)
    ensures |r| == |s|
  {
    seq(|s|, i requires 0 <= i < |s| => s[|s| - 1 - i])
  }

  lemma BackwardsSnoc<T>(s: seq<T>, x: T)
    ensures Backwards(s + [x]) == [x] + Backwards(s)
  {
  }

  method Reverse<T>(s: seq<T>) returns (r: seq<T>)
    ensures r == Backwards(s)
  {
    r := s;
    var left, right := 0, |s| - 1;
    while left < right
      invariant 0 <= left && left + right == |s| - 1 && |r| == |s| && right >= -1
      invariant forall i | left <= i <= right :: r[i] == s[i]
      invariant forall i | 0 <= i < left :: r[i] == s[|s| - 1 - i]
      invariant forall i | right < i < |s| :: r[i] == s[|s| - 1 - i]
    {
      r := r[left := r[right]][right := r[left]];
      left, right := left + 1, right - 1;
    }
  }

  // ------------------------------------------------------- what truncation costs

  predicate IsAscii(s: string) { forall c <- s :: Width(c) == 1 }

  lemma {:induction false} BytesBounds(s: string)
    ensures Ascii(s) <= |s| && Ascii(s) + 2 * (|s| - Ascii(s)) <= Bytes(s) <= Ascii(s) + 4 * (|s| - Ascii(s))
  {
    if s != "" { BytesBounds(s[1..]); }
  }

  lemma {:induction false} AllAscii(s: string)
    requires IsAscii(s)
    ensures Ascii(s) == |s| == Bytes(s)
  {
    if s != "" { AllAscii(s[1..]); }
  }

  /** Cutting to four bytes for each token of the budget uses the budget up, and at
      most doubles it: a two-byte code point is a whole token. */
  lemma CutTokens(s: string, budget: nat)
    requires Tokens(s) > budget
    ensures budget <= Tokens(Truncated(s, budget * 4)) <= 2 * budget
    ensures IsAscii(s) ==> Tokens(Truncated(s, budget * 4)) == budget
  {
    var t := Truncated(s, budget * 4);
    TruncatedWhole(s, budget * 4);
    BytesBounds(t);
    BytesBounds(s);
    if IsAscii(s) {
      AllAscii(t);
      AllAscii(s);
    }
  }

  // ----------------------------------------------- what the recent inputs amount to

  /** r is the end of messages, with at most its first element cut to a prefix. */
  predicate IsRecentPart(r: seq<string>, messages: seq<string>) {
    |r| <= |messages| &&
    (forall i | 0 < i < |r| :: r[i] == messages[|messages| - |r| + i]) &&
    (r != [] ==> r[0] <= messages[|messages| - |r|])
  }

  lemma {:induction false} RecentIsRecentPart(messages: seq<string>, budget: int)
    ensures IsRecentPart(Recent(messages, budget), messages)
  {
    if messages != [] && budget > 0 {
      var last := messages[|messages| - 1];
      var rest := budget - Tokens(Fitted(last, budget));
      if Tokens(last) > budget { CutTokens(last, budget); }
      RecentIsRecentPart(messages[..|messages| - 1], rest);
    }
  }

  lemma TotalSnoc(ss: seq<string>, x: string)
    ensures Total(ss + [x]) == Total(ss) + Tokens(x)
  {
    assert (ss + [x])[..|ss|] == ss;
  }

  /** At most twice the budget is kept. */
  lemma {:induction false} RecentBudget(messages: seq<string>, budget: int)
    requires budget >= 0
    ensures Total(Recent(messages, budget)) <= 2 * budget
    decreases |messages|
  {
    if messages != [] && budget > 0 {
      var front, last := messages[..|messages| - 1], messages[|messages| - 1];
      var kept := Fitted(last, budget);
      TotalSnoc(Recent(front, budget - Tokens(kept)), kept);
      if Tokens(last) > budget {
        CutTokens(last, budget);
      } else {
        RecentBudget(front, budget - Tokens(kept));
      }
    }
  }

  lemma FittedAscii(s: string, budget: nat)
    requires IsAscii(s)
    ensures Tokens(Fitted(s, budget)) <= budget
  {
    if Tokens(s) > budget { CutTokens(s, budget); }
  }

  predicate AllAsciiTexts(ss: seq<string>) {
    ss == [] || (IsAscii(ss[|ss| - 1]) && AllAsciiTexts(ss[..|ss| - 1]))
  }

  /** Of ASCII text, at most the budget is kept. */
  lemma {:induction false} RecentAsciiBudget(messages: seq<string>, budget: int)
    requires budget >= 0 && AllAsciiTexts(messages)
    ensures Total(Recent(messages, budget)) <= budget
    decreases |messages|
  {
    if messages != [] && budget > 0 {
      var front, last := messages[..|messages| - 1], messages[|messages| - 1];
      var kept := Fitted(last, budget);
      TotalSnoc(Recent(front, budget - Tokens(kept)), kept);
      FittedAscii(last, budget);
      RecentAsciiBudget(front, budget - Tokens(kept));
    }
  }

  /** Twice the budget is reached: two two-byte letters fit a budget of one token. */
  lemma BudgetDoubles()
    ensures Total(Recent(["\U{e9}\U{e9}\U{e9}"], 1)) == 2
  {
    var s := "\U{e9}\U{e9}\U{e9}";
    assert s[1..] == "\U{e9}\U{e9}" && s[1..][1..] == "\U{e9}" && s[1..][1..][1..] == "";
    assert Tokens(s) == 3;
    var t := "\U{e9}\U{e9}";
    assert Truncated("\U{e9}", 2) == "\U{e9}" && Truncated(s[1..], 2) == "\U{e9}" && Truncated(s, 4) == t;
    assert t[1..] == "\U{e9}" && Tokens(t) == 2;
    var none: seq<string> := [];
    assert [s][..0] == none && Recent([s], 1) == [t];
    assert [t][..0] == none && Total([t]) == 2;
  }

  lemma SnocEqual(r: seq<string>, x: string, s: seq<string>, y: string)
    ensures r + [x] == s + [y] <==> r == s && x == y
  {
    assert (r + [x])[..|r|] == r && (s + [y])[..|s|] == s;
    assert |r| == |s| ==> (r + [x])[|r|] == x && (s + [y])[|r|] == y;
  }

  lemma KeepsLastIff(front: seq<string>, last: string, budget: int)
    requires budget > 0
    ensures Recent(front + [last], budget) == front + [last] <==>
            (Tokens(last) <= budget || Bytes(last) <= budget * 4) && Recent(front, budget - Tokens(last)) == front
  {
    var messages := front + [last];
    var kept := Fitted(last, budget);
    assert messages[..|messages| - 1] == front;
    TruncatedWhole(last, budget * 4);
    SnocEqual(Recent(front, budget - Tokens(kept)), kept, front, last);
  }

  /** Everything is kept verbatim exactly when all but the oldest input leave some
      budget, and the oldest fits what is left by tokens or by bytes. */
  lemma {:induction false} KeepsAllIff(messages: seq<string>, budget: int)
    ensures Recent(messages, budget) == messages <==>
            messages == [] ||
            (var left := budget - Total(messages[1..]);
             left > 0 && (Tokens(messages[0]) <= left || Bytes(messages[0]) <= left * 4))
    decreases |messages|
  {
    if messages != [] && budget > 0 {
      var front, last := messages[..|messages| - 1], messages[|messages| - 1];
      assert messages == front + [last];
      KeepsLastIff(front, last, budget);
      if front != [] {
        assert messages[1..] == front[1..] + [last];
        TotalSnoc(front[1..], last);
        KeepsAllIff(front, budget - Tokens(last));
      }
    }
  }

  /** An input within the budget that is not kept verbatim: the newer input uses the
      budget up, and the empty one before it is left out. */
  lemma EmptyInputLost()
    ensures Total(["", "aaaa"]) == 1 && Recent(["", "aaaa"], 1) == ["aaaa"]
  {
    var messages := ["", "aaaa"];
    assert messages[..1] == [""] && [""][..0] == [] && Total([]) == 0 && Tokens("") == 0;
    AllAscii("aaaa");
    assert Tokens("aaaa") == 1 && Total([""]) == 0;
    assert Recent([""], 0) == [] && [] + ["aaaa"] == ["aaaa"];
  }

  lemma {:induction false} TotalOfEmpty(ss: seq<string>)
    requires Total(ss) == 0
    ensures forall s <- ss :: s == ""
  {
    if ss != [] {
      var last := ss[|ss| - 1];
      assert Tokens(last) == 0 && last == "";
      TotalOfEmpty(ss[..|ss| - 1]);
      assert ss == ss[..|ss| - 1] + [last];
    }
  }

  /** Within the budget no text is lost: only empty inputs can be left out, the oldest ones. */
  lemma {:induction false} WithinBudget(messages: seq<string>, budget: int) returns (k: nat)
    requires Total(messages) <= budget
    ensures k <= |messages| && Recent(messages, budget) == messages[k..] && forall i | 0 <= i < k :: messages[i] == ""
  {
    if messages == [] || budget == 0 {
      TotalOfEmpty(messages);
      k := |messages|;
      assert forall i | 0 <= i < k :: messages[i] in messages;
    } else {
      var front, last := messages[..|messages| - 1], messages[|messages| - 1];
      k := WithinBudget(front, budget - Tokens(last));
      assert messages[k..] == front[k..] + [last];
    }
  }
}
