/**
 A measurement identifier: a metric name and a tag map. Identifiers are values;
 adding tags yields a new identifier in which the added keys override the old
 ones (copy on write), and the original is left as it was.
 */
module Ids {

  datatype Id = Id(name: string, tags: map<string, string>) {

    /** The identifier with the single tag `key` set to `value`. */
    function WithTag(key: string, value: string): (r: Id)
      ensures r.name == name
      ensures r.tags.Keys == tags.Keys + {key}
      ensures r.tags[key] == value
      ensures AgreesOutside(this, r, {key})
    {
      Id(name, tags[key := value])
    }

    /** The identifier with every tag of `extra` set, overriding existing values. */
    function WithTags(extra: map<string, string>): (r: Id)
      ensures r.name == name
      ensures r.tags.Keys == tags.Keys + extra.Keys
      ensures forall k :: k in extra ==> r.tags[k] == extra[k]
      ensures AgreesOutside(this, r, extra.Keys)
    {
      Id(name, tags + extra)
    }
  }

  /** `a` and `b` have the same name and agree on every tag key outside `keys`. */
  ghost predicate AgreesOutside(a: Id, b: Id, keys: set<string>) {
    && a.name == b.name
    && forall k :: k !in keys ==>
         (k in a.tags <==> k in b.tags) && (k in a.tags ==> a.tags[k] == b.tags[k])
  }

  /** Setting one tag is setting a one-entry tag map. */
  lemma WithTagIsWithTags(id: Id, key: string, value: string)
    ensures id.WithTag(key, value) == id.WithTags(map[key := value])
  {
  }

  /** Setting the same keys again leaves only the latest values. */
  lemma WithTagsOverwrite(id: Id, first: map<string, string>, second: map<string, string>)
    requires first.Keys <= second.Keys
    ensures id.WithTags(first).WithTags(second) == id.WithTags(second)
  {
  }

  /** Tag maps over disjoint keys can be applied in either order. */
  lemma WithTagsCommute(id: Id, a: map<string, string>, b: map<string, string>)
    requires a.Keys !! b.Keys
    ensures id.WithTags(a).WithTags(b) == id.WithTags(b).WithTags(a)
  {
  }
}
