/** The testimonial card helpers of the client: `getRandomColor`, a string
    hash that picks a pastel hue, and the author's display name. */
module Avatar {
  import opened Common

  const Two31: int := 0x8000_0000
  const Two32: int := 0x1_0000_0000

  /** ECMAScript ToInt32 on an integer: wrap into [-2^31, 2^31). */
  function ToInt32(x: int): (r: int)
    ensures -Two31 <= r < Two31
    ensures (x - r) % Two32 == 0
    ensures -Two31 <= x < Two31 ==> r == x
  {
    var m := x % Two32;
    assert x == (x / Two32) * Two32 + m;
    if m >= Two31 then m - Two32 else m
  }

  /** JavaScript `x << 5`: the operand and the result both wrap to 32 bits. */
  function ShiftLeft5(x: int): (r: int)
    ensures -Two31 <= r < Two31
    ensures (r - 32 * x) % Two32 == 0
  {
    var y := ToInt32(x);
    assert (x - y) % Two32 == 0;
    assert 32 * x - 32 * y == 32 * (x - y);
    assert (ToInt32(y * 32) - y * 32) % Two32 == 0;
    ToInt32(ToInt32(x) * 32)
  }

  /** The shift is plain multiplication by 32 while that fits in 32 bits. */
  lemma ShiftExact(x: int)
    requires -0x400_0000 <= x < 0x400_0000
    ensures ShiftLeft5(x) == x * 32
  {
  }

  /** One step of the loop: `hash = c + ((hash << 5) - hash)`; only the shift
      wraps, the rest is exact. */
  function Step(hash: int, c: char): int {
    c as int + (ShiftLeft5(hash) - hash)
  }

  /** The hash of a whole seed, character by character from the left. */
  function HashOf(seed: string): int
    decreases |seed|
  {
    if seed == [] then 0 else Step(HashOf(seed[..|seed| - 1]), seed[|seed| - 1])
  }

  /** The hash grows by at most 2^31 plus one character code per character. */
  lemma {:induction false} HashBound(seed: string)
    ensures -|seed| * (Two31 + 0x11_0000) <= HashOf(seed) <= |seed| * (Two31 + 0x11_0000)
    decreases |seed|
  {
    if seed != [] {
      HashBound(seed[..|seed| - 1]);
      assert (|seed| - 1) * (Two31 + 0x11_0000) + (Two31 + 0x11_0000) == |seed| * (Two31 + 0x11_0000);
    }
  }

  /** Seeds of up to 2^21 characters keep the hash below 2^53, where
      JavaScript numbers are exact integers, so the unbounded model agrees
      with the program there. */
  lemma HashExactForShortSeeds(seed: string)
    requires |seed| <= 0x20_0000
    ensures -0x20_0000_0000_0000 < HashOf(seed) < 0x20_0000_0000_0000
  {
    HashBound(seed);
    assert |seed| * (Two31 + 0x11_0000) <= 0x20_0000 * (Two31 + 0x11_0000);
  }

  function Abs(x: int): nat {
    if x < 0 then -x else x
  }

  /** `Math.abs(hash) % 360` */
  function Hue(seed: string): (h: nat)
    ensures h < 360
  {
    Abs(HashOf(seed)) % 360
  }

  /** The number a string of decimal digits denotes, read from the left. */
  function DecimalValue(s: string): nat
    requires forall i :: 0 <= i < |s| ==> '0' <= s[i] <= '9'
    decreases |s|
  {
    if s == [] then 0
    else 10 * DecimalValue(s[..|s| - 1]) + (s[|s| - 1] as int - '0' as int)
  }

  /** The decimal numeral of `n`, as a template literal writes it. */
  function NatToString(n: nat): (s: string)
    ensures |s| >= 1 && forall i :: 0 <= i < |s| ==> '0' <= s[i] <= '9'
    ensures DecimalValue(s) == n
    ensures |s| > 1 ==> s[0] != '0'
    ensures n < 10 ==> |s| == 1
    ensures n < 1000 ==> |s| <= 3
  {
    if n < 10 then ["0123456789"[n]] else NatToString(n / 10) + ["0123456789"[n % 10]]
  }

  function Color(seed: string): string {
    "hsl(" + NatToString(Hue(seed)) + ", 70%, 80%)"
  }

  /** `getRandomColor(seed)` */
  method GetRandomColor(seed: string) returns (color: string)
    ensures color == Color(seed)
    ensures exists h :: 0 <= h < 360 && color == "hsl(" + NatToString(h) + ", 70%, 80%)"
  {
    var hash := 0;
    var i := 0;
    while i < |seed|
      invariant 0 <= i <= |seed|
      invariant hash == HashOf(seed[..i])
    {
      assert seed[..i + 1][..i] == seed[..i];
      hash := seed[i] as int + (ShiftLeft5(hash) - hash);
      i := i + 1;
    }
    assert seed[..i] == seed;
    var h := Abs(hash) % 360;
    color := "hsl(" + NatToString(h) + ", 70%, 80%)";
  }

  /** The empty seed leaves the hash at 0 and gives hue 0. */
  lemma EmptySeedColor()
    ensures Color("") == "hsl(0, 70%, 80%)"
  {
  }

  /** The populated author of a testimonial; an absent text field is "". */
  datatype Author = Author(username: string, firstName: string, lastName: Option<string>)

  /** `t.user?.username || (t.user?.firstName ? `${firstName} ${lastName}` :
      'Anonymous')`; a missing last name prints as "undefined". */
  function DisplayName(user: Option<Author>): (name: string)
    ensures name != ""
    ensures user.Some? && user.value.username != "" ==> name == user.value.username
    ensures user.Some? && user.value.username == "" && user.value.firstName != "" ==>
              name == user.value.firstName + " " + user.value.lastName.GetOr("undefined")
    ensures (user.None? || (user.value.username == "" && user.value.firstName == "")) ==> name == "Anonymous"
  {
    if user.Some? && user.value.username != "" then user.value.username
    else if user.Some? && user.value.firstName != "" then
      user.value.firstName + " " + (if user.value.lastName.Some? then user.value.lastName.value else "undefined")
    else "Anonymous"
  }

  /** `t.user?._id || t._id`: the seed is the author's id, or the
      testimonial's own id when the author is missing. */
  function AvatarSeed(userId: Option<string>, testimonialId: string): (r: string)
    ensures r == testimonialId || (userId.Some? && r == userId.value)
    ensures userId.Some? && userId.value != "" ==> r == userId.value
    ensures r == "" <==> (userId.None? || userId.value == "") && testimonialId == ""
  {
    if userId.Some? && userId.value != "" then userId.value else testimonialId
  }
}
