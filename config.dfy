/** The configuration schema and validator of cmd/baton-privx/config.go.
    A loaded configuration is a map from field name to string value; a
    field that is absent reads as "", as viper's GetString does. */
module Config {
  import opened Base

  /** field.StringField(name, WithDescription(description)). */
  datatype SchemaField = StringField(name: string, description: string)

  const BaseUrlField := StringField("base-url", "The hostname (URL) for your PrivX instance")
  const ApiClientIdField := StringField("api-client-id", "The API Client ID (a UUID.)")
  const ApiClientSecretField := StringField("api-client-secret", "The API Client Secret (a base64 string.)")
  const OauthClientIdField := StringField("oauth-client-id", "The OAuth Client ID (e.g. \"privx-external\".)")
  const OauthClientSecretField := StringField("oauth-client-secret", "The OAuth Client Secret (a base64 string.)")

  /** configurationFields, in declaration order. */
  const ConfigurationFields: seq<SchemaField> :=
    [ApiClientIdField, ApiClientSecretField, BaseUrlField, OauthClientIdField, OauthClientSecretField]

  /** The order in which validateConfig checks the fields. */
  const ValidationOrder: seq<SchemaField> :=
    [BaseUrlField, ApiClientIdField, ApiClientSecretField, OauthClientIdField, OauthClientSecretField]

  function GetString(v: map<string, string>, key: string): string {
    if key in v then v[key] else ""
  }

  /** validateConfig: the first field, in validation order, whose value is
      empty is reported as "<name> is required"; any non-empty value passes. */
  function ValidateConfig(v: map<string, string>): (r: Option<Error>)
    ensures r.None? <==> forall f | f in ConfigurationFields :: GetString(v, f.name) != ""
    ensures r.Some? ==> exists i | 0 <= i < |ValidationOrder| ::
      && GetString(v, ValidationOrder[i].name) == ""
      && r.value == Errorf(ValidationOrder[i].name + " is required")
      && forall j | 0 <= j < i :: GetString(v, ValidationOrder[j].name) != ""
  {
    if GetString(v, BaseUrlField.name) == "" then
      assert ValidationOrder[0] == BaseUrlField;
      assert BaseUrlField.name + " is required" == "base-url is required";
      Some(Errorf("base-url is required"))
    else if GetString(v, ApiClientIdField.name) == "" then
      assert ValidationOrder[1] == ApiClientIdField;
      assert ApiClientIdField.name + " is required" == "api-client-id is required";
      Some(Errorf("api-client-id is required"))
    else if GetString(v, ApiClientSecretField.name) == "" then
      assert ValidationOrder[2] == ApiClientSecretField;
      assert ApiClientSecretField.name + " is required" == "api-client-secret is required";
      Some(Errorf("api-client-secret is required"))
    else if GetString(v, OauthClientIdField.name) == "" then
      assert ValidationOrder[3] == OauthClientIdField;
      assert OauthClientIdField.name + " is required" == "oauth-client-id is required";
      Some(Errorf("oauth-client-id is required"))
    else if GetString(v, OauthClientSecretField.name) == "" then
      assert ValidationOrder[4] == OauthClientSecretField;
      assert OauthClientSecretField.name + " is required" == "oauth-client-secret is required";
      Some(Errorf("oauth-client-secret is required"))
    else
      None
  }

  /** The schema declares five fields with distinct names, and they are
      exactly the fields the validator checks. */
  lemma SchemaMatchesValidation()
    ensures |ConfigurationFields| == 5
    ensures forall i, j | 0 <= i < j < |ConfigurationFields| ::
      ConfigurationFields[i].name != ConfigurationFields[j].name
    ensures multiset(ConfigurationFields) == multiset(ValidationOrder)
  {
  }

  /** Only emptiness matters: two configurations whose fields are empty in
      the same places validate alike. */
  lemma OnlyEmptinessMatters(v: map<string, string>, w: map<string, string>)
    requires forall f | f in ConfigurationFields :: (GetString(v, f.name) == "") == (GetString(w, f.name) == "")
    ensures ValidateConfig(v) == ValidateConfig(w)
  {
    assert ConfigurationFields[2] == BaseUrlField;
  }
}
