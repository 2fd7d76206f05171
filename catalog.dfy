/** model_config.json, the catalog of supported models, as read by the
    scripts: a map from model name to the entry's keys. A key that is absent
    from an entry is `None`; reading it with `models[name][key]` raises KeyError. */
module Catalog {
  import opened Common

  datatype Entry = Entry(
    repoId: Option<string>,
    repoVersion: Option<string>,
    handler: Option<string>,
    /** generation parameters, each value as Python's `str()` renders it */
    modelParams: Option<map<string, string>>,
    /** registration parameters (initial_workers, batch_size, ...) */
    registrationParams: Option<map<string, int>>)

  type Catalog = map<string, Entry>
}
