/**
 * The editable prompt table (server/routes/prompts.ts). The JSON file it
 * reads and writes is a map from prompt type to a map from locale to text.
 */
module PromptTable {
  import opened Wrappers

  type Document = map<string, map<string, string>>

  datatype UpdateStatus = Updated | TypeNotFound   // 200 { success: true } | 404

  /**
   * The entry a single update leaves for `locale`: the text, or no entry when
   * the body had no `content` (an `undefined` property is dropped when the
   * document is serialised).
   */
  function SetEntry(entries: map<string, string>, locale: string, content: Option<string>): (r: map<string, string>)
    ensures content.Some? ==> locale in r && r[locale] == content.value
    ensures content.None? ==> locale !in r
    ensures forall l :: l != locale ==> (l in r <==> l in entries)
    ensures forall l :: l != locale && l in entries ==> r[l] == entries[l]
  {
    if content.Some? then entries[locale := content.value] else entries - {locale}
  }

  class PromptStore {
    var doc: Document

    constructor (initial: Document)
      ensures doc == initial
    {
      doc := initial;
    }

    /** `GET /prompts`. */
    method ReadAll() returns (d: Document)
      ensures d == doc
    {
      d := doc;
    }

    /** `PUT /prompts`: the request body becomes the whole document. */
    method ReplaceAll(body: Document)
      modifies this
      ensures doc == body
    {
      doc := body;
    }

    /**
     * `PUT /prompts/:type/:locale`: an unknown type is refused with 404 and
     * nothing is written; otherwise only `doc[type][locale]` changes, and
     * the locale need not exist yet.
     */
    method UpdateOne(kind: string, locale: string, content: Option<string>) returns (status: UpdateStatus)
      modifies this
      ensures status == TypeNotFound <==> kind !in old(doc)
      ensures status == TypeNotFound ==> doc == old(doc)
      ensures status == Updated ==> doc == old(doc)[kind := SetEntry(old(doc)[kind], locale, content)]
    {
      if kind !in doc {
        return TypeNotFound;
      }
      doc := doc[kind := SetEntry(doc[kind], locale, content)];
      return Updated;
    }
  }

  /**
   * What a successful single update does to the document: every other type
   * and every other locale of the same type keep their text.
   */
  lemma UpdateIsLocal(d: Document, kind: string, locale: string, content: Option<string>)
    requires kind in d
    ensures var d' := d[kind := SetEntry(d[kind], locale, content)];
      && d'.Keys == d.Keys
      && (forall k :: k in d && k != kind ==> d'[k] == d[k])
      && (forall l :: l in d[kind] && l != locale ==> l in d'[kind] && d'[kind][l] == d[kind][l])
      && (content.Some? ==> d'[kind][locale] == content.value)
  {
  }

  /** A locale the type did not have is added by an update with content. */
  method AddsNewLocale(kind: string, existing: map<string, string>, locale: string, text: string)
    returns (status: UpdateStatus, entries: map<string, string>)
    requires locale !in existing
    ensures status == Updated
    ensures entries.Keys == existing.Keys + {locale} && entries[locale] == text
  {
    var store := new PromptStore(map[kind := existing]);
    status := store.UpdateOne(kind, locale, Some(text));
    var d := store.ReadAll();
    entries := d[kind];
  }

  /** An update of a type the document lacks is refused and leaves the read unchanged. */
  method UnknownTypeRefused(d: Document, kind: string, locale: string, text: string)
    returns (status: UpdateStatus, after: Document)
    requires kind !in d
    ensures status == TypeNotFound && after == d
  {
    var store := new PromptStore(d);
    status := store.UpdateOne(kind, locale, Some(text));
    after := store.ReadAll();
  }
}
