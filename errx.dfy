/**
  The business errors of biz/infra/cst/errx.go: an `Errorx` is a (code, message) pair, built by
  `New`, read back by `GetCode`/`GetMsg`, and rendered by `Error()` as "code=<decimal>, msg=<msg>".
  The predefined errors form a constant table whose codes are pairwise distinct.
 */
module Errx {
  import opened Wrappers

  /** The code reserved for errors that are not business errors (`unknowCode`). */
  const UnknownCode: int := 999

  datatype Errorx = Errorx(code: int, msg: string) {

    /** The `error` interface: Go's `fmt.Sprintf("code=%d, msg=%s", e.Code, e.Msg)`. */
    function Error(): (s: string)
      ensures ParseError(s) == Some(this)
    {
      ErrorRoundTrip(this);
      "code=" + Decimal(code) + ", msg=" + msg
    }

    function GetCode(): (c: int)
      ensures c == code
    {
      code
    }

    function GetMsg(): (m: string)
      ensures m == msg
    {
      msg
    }
  }

  function New(code: int, msg: string): (e: Errorx)
    ensures e.GetCode() == code && e.GetMsg() == msg
  {
    Errorx(code, msg)
  }

  /** Two errors render to the same string only if they are the same error. */
  lemma ErrorInjective(a: Errorx, b: Errorx)
    ensures a.Error() == b.Error() <==> a == b
  {
    if a.Error() == b.Error() {
      assert ParseError(a.Error()) == Some(a);
      assert ParseError(b.Error()) == Some(b);
    }
  }

  // ---------------------------------------------------------------------------------------------
  // Decimal rendering of `%d` and its inverse

  predicate IsDigit(c: char) { '0' <= c <= '9' }

  predicate AllDigits(s: string) { forall i :: 0 <= i < |s| ==> IsDigit(s[i]) }

  function DigitChar(d: nat): (c: char)
    requires d < 10
    ensures IsDigit(c) && (c as int) - ('0' as int) == d
  {
    (('0' as int) + d) as char
  }

  function DigitValue(c: char): (d: nat)
    requires IsDigit(c)
    ensures d < 10
  {
    (c as int) - ('0' as int)
  }

  /** The decimal digits of a natural number, most significant first, without leading zeros. */
  function NatDigits(n: nat): (s: string)
    ensures |s| >= 1 && AllDigits(s)
    decreases n
  {
    if n < 10 then [DigitChar(n)] else NatDigits(n / 10) + [DigitChar(n % 10)]
  }

  /** `%d`: a minus sign for negative numbers, then the digits of the magnitude. */
  function Decimal(n: int): (s: string)
    ensures |s| >= 1
    ensures ',' !in s
  {
    var s := if n < 0 then "-" + NatDigits(-n) else NatDigits(n);
    assert forall i :: 0 <= i < |s| ==> s[i] == '-' || IsDigit(s[i]);
    s
  }

  function ParseNat(s: string): nat
    requires AllDigits(s)
  {
    if |s| == 0 then 0 else ParseNat(s[..|s| - 1]) * 10 + DigitValue(s[|s| - 1])
  }

  function ParseInt(s: string): Option<int>
  {
    if |s| >= 2 && s[0] == '-' && AllDigits(s[1..]) then
      var magnitude: int := ParseNat(s[1..]);
      Some(-magnitude)
    else if |s| >= 1 && AllDigits(s) then Some(ParseNat(s))
    else None
  }

  lemma {:induction false} ParseNatDigits(n: nat)
    ensures ParseNat(NatDigits(n)) == n
    decreases n
  {
    var s := NatDigits(n);
    if n >= 10 {
      ParseNatDigits(n / 10);
      assert s[..|s| - 1] == NatDigits(n / 10);
    }
  }

  /** Reading a rendered number back gives the number. */
  lemma DecimalRoundTrip(n: int)
    ensures ParseInt(Decimal(n)) == Some(n)
  {
    var s := Decimal(n);
    if n < 0 {
      var digits := NatDigits(-n);
      ParseNatDigits(-n);
      assert s == "-" + digits;
      assert s[1..] == digits;
    } else {
      var digits := NatDigits(n);
      ParseNatDigits(n);
      assert s == digits;
      assert !IsDigit('-');
      assert s[0] != '-';
    }
  }

  // ---------------------------------------------------------------------------------------------
  // Reading an `Error()` string back

  /** The position of the first `c` in `s`, if any. */
  function IndexOf(s: string, c: char): (r: Option<nat>)
    ensures r.Some? ==> r.value < |s| && s[r.value] == c && c !in s[..r.value]
    ensures r.None? ==> c !in s
  {
    if |s| == 0 then None
    else if s[0] == c then Some(0)
    else match IndexOf(s[1..], c)
      case None => None
      case Some(k) => assert s[..k + 1] == [s[0]] + s[1..][..k]; Some(k + 1)
  }

  lemma {:induction false} IndexOfFirst(a: string, c: char, b: string)
    requires c !in a
    ensures IndexOf(a + [c] + b, c) == Some(|a|)
  {
    if |a| > 0 {
      IndexOfFirst(a[1..], c, b);
      assert (a + [c] + b)[1..] == a[1..] + [c] + b;
    }
  }

  /** The inverse of `Error()`: the code is read up to the first comma, the message is the rest. */
  function ParseError(s: string): Option<Errorx>
  {
    if |s| < 5 || s[..5] != "code=" then None
    else
      var rest := s[5..];
      match IndexOf(rest, ',')
      case None => None
      case Some(k) =>
        if |rest| < k + 6 || rest[k..k + 6] != ", msg=" then None
        else match ParseInt(rest[..k])
          case None => None
          case Some(code) => Some(Errorx(code, rest[k + 6..]))
  }

  /** After the `code=` prefix, the first comma ends the rendered code and starts `, msg=`. */
  lemma ErrorSplit(d: string, msg: string)
    requires ',' !in d
    ensures var s := "code=" + d + ", msg=" + msg;
      && |s| >= 5 && s[..5] == "code="
      && IndexOf(s[5..], ',') == Some(|d|)
      && s[5..][..|d|] == d
      && |s[5..]| >= |d| + 6 && s[5..][|d|..|d| + 6] == ", msg="
      && s[5..][|d| + 6..] == msg
  {
    var tail := " msg=" + msg;
    var s := "code=" + d + ", msg=" + msg;
    var rest := s[5..];
    assert rest == d + [','] + tail;
    IndexOfFirst(d, ',', tail);
  }

  lemma ErrorRoundTrip(e: Errorx)
    ensures ParseError("code=" + Decimal(e.code) + ", msg=" + e.msg) == Some(e)
  {
    var d := Decimal(e.code);
    ErrorSplit(d, e.msg);
    DecimalRoundTrip(e.code);
  }

  // ---------------------------------------------------------------------------------------------
  // The predefined errors

  const UnAuthErr := New(1000, "身份认证失败")
  const UnImplementErr := New(888, "尚未实现的功能")
  const OIDErr := New(777, "id错误")
  const Interrupt := New(666, "中断")
  const NotFound := New(555, "数据不存在")

  const PhoneNilErr := New(20001, "手机号为空")
  const VerifyCodeSendErr := New(20002, "验证码发送失败")
  const UnSupportWay := New(20003, "不支持的登录方式")
  const VerifyCodeErr := New(20004, "验证码验证失败")
  const LoginErr := New(20005, "登录失败")
  const NoPassword := New(20006, "未设置密码")
  const ErrPassword := New(20007, "密码错误")
  const ErrSetPassword := New(20008, "密码设置失败")
  const InvalidPassword := New(20009, "密码不合要求")
  const ConversationCreationErr := New(30001, "创建对话失败")
  const ConversationRenameErr := New(30002, "对话标题重命名失败")
  const ConversationListErr := New(30003, "分页获取历史对话失败")
  const ConversationGetErr := New(30004, "获取对话历史记录失败")
  const ConversationDeleteErr := New(30005, "删除历史记录失败")
  const ConversationSearchErr := New(30006, "搜索历史记录失败")

  /** Every predefined error, in declaration order. */
  const Predefined: seq<Errorx> := [
    UnAuthErr, UnImplementErr, OIDErr, Interrupt, NotFound,
    PhoneNilErr, VerifyCodeSendErr, UnSupportWay, VerifyCodeErr, LoginErr,
    NoPassword, ErrPassword, ErrSetPassword, InvalidPassword,
    ConversationCreationErr, ConversationRenameErr, ConversationListErr,
    ConversationGetErr, ConversationDeleteErr, ConversationSearchErr
  ]

  /** A caller can tell the predefined errors apart by code alone, and none is the unknown code. */
  lemma PredefinedCodesDistinct()
    ensures forall i, j :: 0 <= i < j < |Predefined| ==> Predefined[i].code != Predefined[j].code
    ensures forall i :: 0 <= i < |Predefined| ==> Predefined[i].code != UnknownCode
  {
  }

  /** The code ranges the handlers rely on. */
  lemma PredefinedCodeRanges()
    ensures UnAuthErr.code == 1000 && NotFound.code == 555
    ensures forall i :: 5 <= i < 14 ==> Predefined[i].code == 20001 + (i - 5)
    ensures forall i :: 14 <= i < 20 ==> Predefined[i].code == 30001 + (i - 14)
  {
  }
}
