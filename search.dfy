/** The search boxes of the list pages: a case-insensitive substring test on
    text fields, and for orders and delivery tasks an extra substring test
    on the decimal id. */
module Search {
  import opened Wrappers
  import opened Text

  /** `field.toLowerCase().includes(term.toLowerCase())`. */
  predicate TextMatches(field: string, term: string)
  {
    Includes(Lower(field), Lower(term))
  }

  /** `row.customer_name?.toLowerCase().includes(term.toLowerCase()) ||
      row.id.toString().includes(term)`: a missing customer name never
      matches, and the id is compared against the term as typed. */
  predicate NameOrIdMatches(customerName: Option<string>, id: nat, term: string)
  {
    (customerName.Some? && TextMatches(customerName.value, term)) || Includes(NatToString(id), term)
  }

  lemma LowerUpper(t: string)
    ensures Lower(Upper(t)) == Lower(t)
  {
  }

  /** A digit string contains no string with a non-digit in it. */
  lemma NoNonDigitInDigits(s: string, t: string, j: int)
    requires AllDigits(s)
    requires 0 <= j < |t| && !IsDigit(t[j])
    ensures !Includes(s, t)
  {
    forall i | 0 <= i && i + |t| <= |s|
      ensures !OccursAt(s, t, i)
    {
      assert s[i..i + |t|][j] == s[i + j];
    }
  }

  /** Upper-casing the term does not change what an id matches. */
  lemma IdMatchIgnoresCase(id: nat, term: string)
    ensures Includes(NatToString(id), Upper(term)) == Includes(NatToString(id), term)
  {
    if AllDigits(term) {
      assert Upper(term) == term;
    } else {
      var j :| 0 <= j < |term| && !IsDigit(term[j]);
      NoNonDigitInDigits(NatToString(id), term, j);
      NoNonDigitInDigits(NatToString(id), Upper(term), j);
    }
  }

  /** Text search ignores the case of the term. */
  lemma TextSearchIgnoresCase(field: string, term: string)
    ensures TextMatches(field, Upper(term)) == TextMatches(field, term)
    ensures TextMatches(field, Lower(term)) == TextMatches(field, term)
  {
    LowerUpper(term);
    assert Lower(Lower(term)) == Lower(term);
  }

  /** The order and task search ignores the case of the term, in both the
      name and the id half. */
  lemma NameOrIdSearchIgnoresCase(customerName: Option<string>, id: nat, term: string)
    ensures NameOrIdMatches(customerName, id, Upper(term)) == NameOrIdMatches(customerName, id, term)
  {
    IdMatchIgnoresCase(id, term);
    if customerName.Some? {
      TextSearchIgnoresCase(customerName.value, term);
    }
  }

  /** An empty search box lists every row; a row is always found by its own
      id, whatever its name. */
  lemma EmptyTermAndOwnIdMatch(customerName: Option<string>, id: nat)
    ensures NameOrIdMatches(customerName, id, "")
    ensures NameOrIdMatches(customerName, id, NatToString(id))
  {
    assert OccursAt(NatToString(id), NatToString(id), 0);
  }

  /** Ids are matched as substrings, not as whole numbers: any run of the
      id's digits finds the row whatever its name, its last digit alone
      included (the term "1" finds order 21), and without a name nothing
      else does. */
  lemma IdMatchesAnySubstring(customerName: Option<string>, id: nat, term: string, k: int)
    requires OccursAt(NatToString(id), term, k)
    ensures NameOrIdMatches(customerName, id, term)
    ensures NameOrIdMatches(customerName, id, [DigitChar(id % 10)])
    ensures NameOrIdMatches(None, id, term) <==> Includes(NatToString(id), term)
  {
    var s := NatToString(id);
    assert s[|s| - 1] == DigitChar(id % 10);
    assert OccursAt(s, [DigitChar(id % 10)], |s| - 1);
  }
}
