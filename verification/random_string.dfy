/**
 * The random_string example command (example/commands/random_string.go). The math/rand generator is
 * replaced by `draws`, the indices it returns in order, each in [0, |LetterBytes|).
 */
module Commands {
  import opened Wrappers
  import opened Strconv

  const LetterBytes: string := "abcdefghijklmnopqrstuvwxyzABCDEFGHIJKLMNOPQRSTUVWXYZ0123456789"

  /** The length used when the `length` flag is absent. */
  const DefaultLength: Int64 := 10

  /** 62 characters: every index rand.Intn(len(letterBytes)) returns is a valid position. */
  lemma LetterBytesSize()
    ensures |LetterBytes| == 62
  {
  }

  /** random_string: a buffer of `n` bytes, position i filled with the letter at the i-th drawn index. */
  method RandomLetters(n: int, draws: seq<int>) returns (s: string)
    requires n >= 0 && |draws| >= n
    requires forall i :: 0 <= i < |draws| ==> 0 <= draws[i] < |LetterBytes|
    ensures |s| == n
    ensures forall i :: 0 <= i < n ==> s[i] == LetterBytes[draws[i]]
    ensures forall i :: 0 <= i < n ==> s[i] in LetterBytes
  {
    var b := new char[n];
    for i := 0 to n
      invariant forall j :: 0 <= j < i ==> b[j] == LetterBytes[draws[j]]
    {
      b[i] := LetterBytes[draws[i]];
    }
    s := b[..];
  }

  /** The length the command uses: the flag's value, or 10 when it is absent. */
  function LengthOf(lengthFlag: Option<Int64>): (n: Int64)
    ensures lengthFlag.None? ==> n == DefaultLength
    ensures lengthFlag.Some? ==> n == lengthFlag.value
  {
    lengthFlag.GetOr(DefaultLength)
  }

  /** RandomString: the three lines the command prints, the last holding a fresh random string. */
  method RandomString(lengthFlag: Option<Int64>, draws: seq<int>) returns (lines: seq<string>)
    requires LengthOf(lengthFlag) >= 0 && |draws| >= LengthOf(lengthFlag)
    requires forall i :: 0 <= i < |draws| ==> 0 <= draws[i] < |LetterBytes|
    ensures |lines| == 3
    ensures lines[0] == "Generate random string. Default length: 10"
    ensures lines[1] == "Length: " + Itoa(LengthOf(lengthFlag))
    ensures |lines[2]| == 8 + LengthOf(lengthFlag) && lines[2][..8] == "String: "
    ensures forall i :: 8 <= i < |lines[2]| ==> lines[2][i] == LetterBytes[draws[i - 8]]
  {
    var length := LengthOf(lengthFlag);
    var s := RandomLetters(length, draws);
    lines := ["Generate random string. Default length: 10", "Length: " + Itoa(length), "String: " + s];
  }
}
