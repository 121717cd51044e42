/** The password-reset token builder (`generateToken` and `getToken` in api/routes/password.js).
    `Math.random` is not modelled: each draw `(Math.random() * 64).toFixed(0)` is an input index. */
module ResetToken {

  const Alphabet: string := "abcdefghijklmnopqrstuvwxyzABCDEFGHIJKLMNOPQRSTUVWXYZ1234567890_&-"

  /** A rounded draw from [0, 64) lies in 0..64. */
  const MaxDraw: nat := 64

  /** `generateToken(length)`: one character of the alphabet per draw, appended in order. */
  method GenerateToken(length: nat, draws: seq<nat>) returns (token: string)
    requires |draws| == length
    requires forall i :: 0 <= i < |draws| ==> draws[i] <= MaxDraw
    ensures |token| == length
    ensures forall i :: 0 <= i < length ==> token[i] == Alphabet[draws[i]]
    ensures forall i :: 0 <= i < length ==> token[i] in Alphabet
  {
    assert |Alphabet| == 65;
    token := "";
    for i := 0 to length
      invariant |token| == i
      invariant forall k :: 0 <= k < i ==> token[k] == Alphabet[draws[k]]
    {
      token := token + [Alphabet[draws[i]]];
    }
  }

  /** `getToken(length)`: "tk_" and three generated tokens separated by '_'. */
  method GetToken(length: nat, d1: seq<nat>, d2: seq<nat>, d3: seq<nat>) returns (token: string)
    requires |d1| == length && |d2| == length && |d3| == length
    requires forall i :: 0 <= i < length ==> d1[i] <= MaxDraw && d2[i] <= MaxDraw && d3[i] <= MaxDraw
    ensures |token| == 3 * length + 5
    ensures token[..3] == "tk_"
    ensures token[3 + length] == '_' && token[4 + 2 * length] == '_'
    ensures forall i :: 0 <= i < length ==>
              && token[3 + i] == Alphabet[d1[i]]
              && token[4 + length + i] == Alphabet[d2[i]]
              && token[5 + 2 * length + i] == Alphabet[d3[i]]
  {
    var t1 := GenerateToken(length, d1);
    var t2 := GenerateToken(length, d2);
    var t3 := GenerateToken(length, d3);
    token := "tk_" + t1 + "_" + t2 + "_" + t3;
  }
}
