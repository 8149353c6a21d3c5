/**
  The key-to-label transform used when the free-form `extra` fields of a
  booking are rendered: `key.replace(/([A-Z])/g, " $1")`, which puts one
  space in front of every ASCII capital letter.
 */
module Labels {

  predicate IsAsciiUpper(c: char) {
    'A' <= c <= 'Z'
  }

  /** Number of ASCII capitals in `s`. */
  function CountUpper(s: string): nat {
    if s == [] then 0
    else (if IsAsciiUpper(s[0]) then 1 else 0) + CountUpper(s[1..])
  }

  /** The label shown for an `extra` key. */
  function Labelize(key: string): string {
    if key == [] then []
    else (if IsAsciiUpper(key[0]) then [' ', key[0]] else [key[0]]) + Labelize(key[1..])
  }

  /** Deletes every space that directly precedes an ASCII capital. */
  function Unlabel(t: string): string {
    if |t| < 2 then t
    else if t[0] == ' ' && IsAsciiUpper(t[1]) then [t[1]] + Unlabel(t[2..])
    else [t[0]] + Unlabel(t[1..])
  }

  /** The label is one character longer per capital letter. */
  lemma {:induction false} LabelizeLength(key: string)
    ensures |Labelize(key)| == |key| + CountUpper(key)
  {
    if key != [] {
      LabelizeLength(key[1..]);
    }
  }

  /** A label never starts with a capital: a capital at the front gets a space. */
  lemma {:induction false} LabelizeHead(key: string)
    requires key != []
    ensures Labelize(key) != []
    ensures !IsAsciiUpper(Labelize(key)[0])
  {
  }

  /** Deleting the inserted spaces gives the key back. */
  lemma {:induction false} LabelizeRoundTrip(key: string)
    ensures Unlabel(Labelize(key)) == key
  {
    if key != [] {
      var rest := Labelize(key[1..]);
      LabelizeRoundTrip(key[1..]);
      if IsAsciiUpper(key[0]) {
        assert Labelize(key) == [' ', key[0]] + rest;
        assert (Labelize(key))[2..] == rest;
      } else {
        assert Labelize(key) == [key[0]] + rest;
        assert (Labelize(key))[1..] == rest;
        if rest != [] {
          LabelizeHead(key[1..]);
          assert !IsAsciiUpper(Labelize(key)[1]);
        }
      }
    }
  }

  /** The transform works character by character, so it distributes over concatenation. */
  lemma {:induction false} LabelizeConcat(a: string, b: string)
    ensures Labelize(a + b) == Labelize(a) + Labelize(b)
  {
    if a == [] {
      assert a + b == b;
    } else {
      assert (a + b)[0] == a[0];
      assert (a + b)[1..] == a[1..] + b;
      LabelizeConcat(a[1..], b);
    }
  }

  /** Every capital in a label has a space right before it. */
  lemma {:induction false} LabelizeSpacesCapitals(key: string)
    ensures forall i :: 0 <= i < |Labelize(key)| && IsAsciiUpper(Labelize(key)[i]) ==>
      0 < i && Labelize(key)[i - 1] == ' '
  {
    if key != [] {
      LabelizeSpacesCapitals(key[1..]);
      var rest := Labelize(key[1..]);
      if rest != [] {
        LabelizeHead(key[1..]);
      }
      if IsAsciiUpper(key[0]) {
        assert Labelize(key) == [' ', key[0]] + rest;
      } else {
        assert Labelize(key) == [key[0]] + rest;
      }
    }
  }

  /** A key is shown unchanged exactly when it has no capitals. */
  lemma {:induction false} LabelizeUnchangedIff(key: string)
    ensures Labelize(key) == key <==> CountUpper(key) == 0
  {
    LabelizeLength(key);
    if CountUpper(key) == 0 {
      NoUpperUnchanged(key);
    }
  }

  lemma {:induction false} NoUpperUnchanged(key: string)
    requires CountUpper(key) == 0
    ensures Labelize(key) == key
  {
    if key != [] {
      NoUpperUnchanged(key[1..]);
      assert key == [key[0]] + key[1..];
    }
  }
}
