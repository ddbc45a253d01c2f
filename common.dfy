/** Value types shared by the strategy assistant's modules: optional dictionary
    entries, the two Python exceptions the assistant can raise, dictionary values,
    strategy documents, and the subsequence relation on lists. */
module Common {

  /** An optional dictionary entry: `None` when the key is absent. */
  datatype Option<+T> = None | Some(value: T) {

    /** The entry, or `default` when it is absent, as `dict.get(key, default)`. */
    function GetOr(default: T): T
    {
      match this
      case Some(v) => v
      case None => default
    }
  }

  /** The exceptions the strategy assistant can raise on malformed input. */
  datatype Error = KeyError(key: string) | TypeError

  /** A computation that either yields a value or raises one of the errors above. */
  datatype Result<+T> = Ok(value: T) | Err(error: Error) {

    predicate IsFailure()
    {
      Err?
    }

    function PropagateFailure<U>(): Result<U>
      requires Err?
    {
      Err(error)
    }

    function Extract(): T
      requires Ok?
    {
      value
    }
  }

  /** The values a feature dictionary holds: `None`, an integer, a string,
      or a list of integers (the stub's feature vector). */
  datatype Value = NoneValue | Int(n: int) | Str(s: string) | IntList(items: seq<int>)

  /** A feature dictionary, keyed by feature name. */
  type Features = map<string, Value>

  /** A strategy document: a record whose `title`, `description` and `steps`
      entries may each be missing. */
  datatype Doc = Doc(title: Option<string>, description: Option<string>, steps: Option<seq<string>>)

  /** `a` is obtained from `b` by deleting elements, keeping the order of the rest. */
  predicate IsSubsequence<T(==)>(a: seq<T>, b: seq<T>)
    decreases |b|
  {
    if |a| == 0 then true
    else if |b| == 0 then false
    else (a[0] == b[0] && IsSubsequence(a[1..], b[1..])) || IsSubsequence(a, b[1..])
  }

  lemma {:induction false} SubsequenceOfSelf<T>(s: seq<T>)
    ensures IsSubsequence(s, s)
  {
    if |s| > 0 {
      SubsequenceOfSelf(s[1..]);
    }
  }
}
