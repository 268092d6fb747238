/** The browser as the client sees it: `localStorage`, the current path, the library
    encoders it provides, and a trace of every effect a handler has on the outside world
    (requests sent, storage writes, navigations, history entries, opened tabs, alerts and
    clicked download links), in the order they happen. */
module Browser {
  import opened Text
  import opened Net

  datatype Effect =
    | Send(request: Request, headers: map<string, string>)
    | StorageSet(key: string, value: string)
    | StorageRemove(key: string)
    | Navigate(url: string)                           // window.location.href = url
    | RouterNavigate(path: string)                    // react-router navigate(path)
    | PushState(url: string)                          // window.history.pushState({}, '', url)
    | OpenTab(url: string)                            // window.open(url, '_blank', ...)
    | Alert(message: string)                          // window.alert(message)
    | ClickLink(href: string, download: Option<string>) // a temporary <a> element, clicked

  /** What the round trips through URLSearchParams need of its name/value encoder: the
      decoder undoes it, and it never emits the pair and field separators. */
  ghost predicate QueryCodec(encode: string -> string, decode: string -> string)
  {
    && (forall s :: decode(encode(s)) == s)
    && (forall s :: '&' !in encode(s) && '=' !in encode(s))
  }

  class Window {
    var storage: map<string, string>
    var trace: seq<Effect>
    /** `window.location.pathname` of the page the handlers run on. */
    const pathname: string
    /** The name/value serialiser of URLSearchParams and its parser's decoder. */
    const formEncode: string -> string
    const formDecode: string -> string
    /** encodeURIComponent. */
    const uriEncode: string -> string

    constructor (storage0: map<string, string>, pathname: string,
                 formEncode: string -> string, formDecode: string -> string, uriEncode: string -> string)
      ensures storage == storage0 && trace == []
      ensures this.pathname == pathname && this.formEncode == formEncode
      ensures this.formDecode == formDecode && this.uriEncode == uriEncode
    {
      storage := storage0;
      trace := [];
      this.pathname := pathname;
      this.formEncode := formEncode;
      this.formDecode := formDecode;
      this.uriEncode := uriEncode;
    }

    /** localStorage.getItem(key); None for null. */
    function GetItem(key: string): Option<string>
      reads this
    {
      if key in storage then Some(storage[key]) else None
    }

    method SetItem(key: string, value: string)
      modifies this
      ensures storage == old(storage)[key := value]
      ensures trace == old(trace) + [StorageSet(key, value)]
    {
      storage := storage[key := value];
      trace := trace + [StorageSet(key, value)];
    }

    method RemoveItem(key: string)
      modifies this
      ensures storage == old(storage) - {key}
      ensures trace == old(trace) + [StorageRemove(key)]
    {
      storage := storage - {key};
      trace := trace + [StorageRemove(key)];
    }

    method Emit(e: Effect)
      modifies this
      ensures storage == old(storage)
      ensures trace == old(trace) + [e]
    {
      trace := trace + [e];
    }
  }
}
