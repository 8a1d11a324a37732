/** The parts of Go's standard library and of third-party packages that the client
    calls but whose code is not part of this model: time.Parse, html.UnescapeString,
    encoding/json, url.Values.Encode, the regular-expression rewrites of the shoutbox,
    the goquery document parser and the unit constants of c2h5oh/datasize. They are
    collected in a `Lib` value so that every operation that depends on them says so
    in its signature. url.Values itself is modelled, since the client builds its
    queries with Add and Set. */
module Library {
  import opened Wrappers

  /** One byte of a response body. */
  type byte = b: int | 0 <= b < 256

  /** A point in time as seconds since the Unix epoch. */
  type Time = int

  /** time.Unix(0, 0), the client's fallback for an unparseable date. */
  const Epoch: Time := 0

  /** time.Time{}, January 1 of year 1, which time.Parse returns with an error. */
  const ZeroTime: Time := -62135596800

  /** The layouts the client hands to time.Parse. */
  const ListLayout := "02.01.200615:04:05"
  const DetailLayout := "2006-01-02 15:04:05"
  const ShoutLayout := "02.01. 15:04"

  /** The multipliers datasize.KB .. datasize.EB. Only their order matters here. */
  datatype Units = Units(kb: nat, mb: nat, gb: nat, tb: nat, pb: nat, eb: nat)
  {
    predicate Valid()
    {
      0 < kb < mb < gb < tb < pb < eb
    }
  }

  /** The regular-expression rewrites of ShoutboxStrip, one per compiled pattern, in
      the order the code applies them. */
  datatype Stage =
    | Center | Bold | Italic | Underline | EmojiImage | Image | Image3 | Color
    | Link | Link2 | Size | Font | Nfo | Pre | Hxxp

  /** url.Values: every key maps to a list of values. */
  type Values = map<string, seq<string>>

  /** Values.Add: append a value to the key's list. */
  function Added(v: Values, key: string, value: string): (r: Values)
    ensures r.Keys == v.Keys + {key}
    ensures r[key] == (if key in v then v[key] else []) + [value]
    ensures forall k :: k in v && k != key ==> r[k] == v[k]
  {
    v[key := (if key in v then v[key] else []) + [value]]
  }

  /** Values.Set: replace the key's list by the one value. */
  function Assigned(v: Values, key: string, value: string): (r: Values)
    ensures r.Keys == v.Keys + {key}
    ensures r[key] == [value]
    ensures forall k :: k in v && k != key ==> r[k] == v[k]
  {
    v[key := [value]]
  }

  /** A url.Values the client fills step by step. */
  class Query {
    var values: Values

    constructor(init: Values)
      ensures values == init
    {
      values := init;
    }

    method Add(key: string, value: string)
      modifies this
      ensures values == Added(old(values), key, value)
    {
      values := Added(values, key, value);
    }

    method Set(key: string, value: string)
      modifies this
      ensures values == Assigned(old(values), key, value)
    {
      values := Assigned(values, key, value);
    }
  }

  /** The library behaviour the model takes as given. */
  datatype Lib = Lib(
    /** time.Parse(layout, text); None stands for a parse error. */
    parseTime: (string, string) -> Option<Time>,
    /** html.UnescapeString. */
    unescape: string -> string,
    /** regexp.ReplaceAllString of one ShoutboxStrip stage, given the site url
        (the link2 stage puts it into its replacement). */
    rewrite: (Stage, string, string) -> string,
    /** json.Unmarshal of a body into [][]string; Err carries the error text. */
    unmarshal: seq<byte> -> Result<seq<seq<string>>, string>,
    /** url.Values.Encode. */
    encode: Values -> string,
    units: Units
  )
}
