/** ConfigType (config_type.go): a tagged value naming a configuration file format. */
module ConfigTypes {

  datatype ConfigType = ConfigType(slug: string) {

    /** The format's name: its slug, unchanged. */
    function String(): (s: string)
      ensures s == slug
    {
      slug
    }
  }

  const Json: ConfigType := ConfigType("json")
  const Yaml: ConfigType := ConfigType("yaml")

  lemma JsonString()
    ensures Json.String() == "json"
  {
  }

  lemma YamlString()
    ensures Yaml.String() == "yaml"
  {
  }

  /** The name is the whole value: two config types print the same exactly when they are equal. */
  lemma StringDeterminesValue(a: ConfigType, b: ConfigType)
    ensures a.String() == b.String() <==> a == b
  {
  }

  lemma JsonYamlDistinct()
    ensures Json != Yaml && Json.String() != Yaml.String()
  {
  }
}
