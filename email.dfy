/**
 * The two e-mail patterns of the booking flow, written as the matches the
 * regular expressions admit: an '@' at `i` and a '.' at `j` cut the address
 * into three non-empty runs, and the runs are drawn from the pattern's
 * character class.
 */
module Email {
  import opened Text

  /** The class `[^@\s]`. */
  predicate Plain(c: char) {
    c != '@' && !IsSpace(c)
  }

  predicate AllPlain(s: string) {
    forall k | 0 <= k < |s| :: Plain(s[k])
  }

  /** The three runs are non-empty and separated by an '@' at `i` and a '.' at `j`. */
  predicate Cuts(s: string, i: nat, j: nat) {
    0 < i && i + 1 < j && j + 1 < |s| && s[i] == '@' && s[j] == '.'
  }

  /**
   * The client pattern `^[^@\s]+@[^@\s]+\.[^@\s]+$` matched with '@' at `i`
   * and '.' at `j`: every character except the '@' is in `[^@\s]` (the '.'
   * is too).
   */
  predicate ClientSplit(s: string, i: nat, j: nat) {
    Cuts(s, i, j) && forall k | 0 <= k < |s| && k != i :: Plain(s[k])
  }

  predicate ClientEmail(s: string) {
    exists i: nat, j: nat | i < |s| && j < |s| :: ClientSplit(s, i, j)
  }

  /** The server pattern `^\S+@\S+\.\S+$` matched with '@' at `i` and '.' at `j`. */
  predicate ServerSplit(s: string, i: nat, j: nat) {
    Cuts(s, i, j) && NoSpace(s)
  }

  predicate ServerEmail(s: string) {
    exists i: nat, j: nat | i < |s| && j < |s| :: ServerSplit(s, i, j)
  }

  /** `ClientSplit` is the regular expression's own reading: three runs of `[^@\s]`. */
  lemma ClientSplitRuns(s: string, i: nat, j: nat)
    requires Cuts(s, i, j)
    ensures ClientSplit(s, i, j) <==> AllPlain(s[..i]) && AllPlain(s[i + 1..j]) && AllPlain(s[j + 1..])
  {
    if AllPlain(s[..i]) && AllPlain(s[i + 1..j]) && AllPlain(s[j + 1..]) {
      forall k | 0 <= k < |s| && k != i ensures Plain(s[k]) {
        if k < i {
          assert s[k] == s[..i][k];
        } else if k < j {
          assert s[k] == s[i + 1..j][k - i - 1];
        } else if k > j {
          assert s[k] == s[j + 1..][k - j - 1];
        }
      }
    }
  }

  /** `ServerSplit` is the regular expression's own reading: three runs of `\S`. */
  lemma ServerSplitRuns(s: string, i: nat, j: nat)
    requires Cuts(s, i, j)
    ensures ServerSplit(s, i, j) <==> NoSpace(s[..i]) && NoSpace(s[i + 1..j]) && NoSpace(s[j + 1..])
  {
    if NoSpace(s[..i]) && NoSpace(s[i + 1..j]) && NoSpace(s[j + 1..]) {
      forall k | 0 <= k < |s| ensures !IsSpace(s[k]) {
        if k < i {
          assert s[k] == s[..i][k];
        } else if i < k < j {
          assert s[k] == s[i + 1..j][k - i - 1];
        } else if k > j {
          assert s[k] == s[j + 1..][k - j - 1];
        }
      }
    }
  }

  /** Every character of a client-accepted address is outside `\s`, so trimming it changes nothing. */
  lemma ClientEmailHasNoSpace(s: string)
    requires ClientEmail(s)
    ensures NoSpace(s)
    ensures Trim(s) == s
  {
    var i: nat, j: nat :| i < |s| && j < |s| && ClientSplit(s, i, j);
    assert forall k | 0 <= k < |s| :: k == i || Plain(s[k]);
    TrimSpec(s);
  }

  /** A client-accepted address has exactly one '@': every '@' is the split point. */
  lemma ClientEmailSingleAt(s: string, i: nat, j: nat)
    ensures ClientSplit(s, i, j) ==> forall k | 0 <= k < |s| && s[k] == '@' :: k == i
  {
  }

  /** The client pattern is at least as strict as the server pattern. */
  lemma ClientEmailIsServerEmail(s: string)
    requires ClientEmail(s)
    ensures ServerEmail(s)
  {
    var i: nat, j: nat :| i < |s| && j < |s| && ClientSplit(s, i, j);
    ClientEmailHasNoSpace(s);
    assert ServerSplit(s, i, j);
  }

  /** ... and strictly so: a second '@' passes the server and fails the client. */
  lemma ServerAcceptsDoubleAt()
    ensures ServerEmail("a@b@c.d") && !ClientEmail("a@b@c.d")
  {
    var s := "a@b@c.d";
    assert ServerSplit(s, 1, 5);
    assert s[1] == '@' && s[3] == '@';
    forall i: nat, j: nat | i < |s| && j < |s| ensures !ClientSplit(s, i, j) {
      ClientEmailSingleAt(s, i, j);
    }
  }

  /** An address needs an '@': "not-an-email" fails both patterns. */
  lemma NotAnEmail()
    ensures !ServerEmail("not-an-email") && !ClientEmail("not-an-email")
  {
    var s := "not-an-email";
    assert forall k | 0 <= k < |s| :: s[k] != '@';
  }
}
