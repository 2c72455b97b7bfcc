/** The error dictionaries the forms keep (`Record<string, string>` in the
    source): a validator runs its checks in turn, each failing one adding its
    field's message to a fresh dictionary, and editing a field blanks that
    field's message. */
module Forms {

  /** One `if (check fails) newErrors.field = message` statement. */
  function Added<K(==)>(m: map<K, string>, fails: bool, k: K, message: string): map<K, string>
  {
    if fails then m[k := message] else m
  }

  /** The statement itself, as the validators run it. */
  method AddIfFailing<K(==)>(m: map<K, string>, fails: bool, k: K, message: string) returns (r: map<K, string>)
    ensures r == Added(m, fails, k, message)
  {
    r := m;
    if fails {
      r := r[k := message];
    }
  }

  /** An error is shown while its entry is truthy. */
  predicate Shown<K(==)>(errors: map<K, string>, k: K)
  {
    k in errors && errors[k] != ""
  }

  /** `if (errors[field]) setErrors(prev => ({ ...prev, [field]: '' }))`. */
  function ClearedError<K(==)>(errors: map<K, string>, k: K): map<K, string>
  {
    if Shown(errors, k) then errors[k := ""] else errors
  }

  /** Clearing hides the edited field's error and no other: the keys stay and
      every other message is kept. */
  lemma ClearedErrorSpec<K>(errors: map<K, string>, k: K)
    ensures !Shown(ClearedError(errors, k), k)
    ensures ClearedError(errors, k).Keys == errors.Keys
    ensures forall g :: g != k && g in errors ==> ClearedError(errors, k)[g] == errors[g]
  {
  }
}
