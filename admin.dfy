/**
 * The settings screen's logic (includes/admin.php): merging a submitted form
 * into the stored options, with a blank API key keeping the stored one, and
 * the masked display of the stored key.
 */
module Admin {
  import opened Wrappers
  import opened Text

  const OrgIdField := "neoncrm_org_id"
  const ApiKeyField := "neoncrm_api_key"

  /**
   * `neoncrm_calendar_sanitize_options`: start from the stored options, take a
   * submitted org id, and take a submitted API key only when it is not blank
   * after trimming. `sanitize` stands for `sanitize_text_field`.
   */
  method SanitizeOptions(input: map<string, string>, stored: map<string, string>, sanitize: string -> string)
    returns (output: map<string, string>)
    ensures forall k :: k != OrgIdField && k != ApiKeyField ==>
      (k in output <==> k in stored) && (k in stored ==> output[k] == stored[k])
    ensures OrgIdField in input ==> OrgIdField in output && output[OrgIdField] == sanitize(input[OrgIdField])
    ensures OrgIdField !in input ==>
      (OrgIdField in output <==> OrgIdField in stored) && (OrgIdField in stored ==> output[OrgIdField] == stored[OrgIdField])
    ensures ApiKeyField in input && Trim(input[ApiKeyField]) != "" ==>
      ApiKeyField in output && output[ApiKeyField] == sanitize(Trim(input[ApiKeyField]))
    ensures ApiKeyField !in input || Trim(input[ApiKeyField]) == "" ==>
      (ApiKeyField in output <==> ApiKeyField in stored) && (ApiKeyField in stored ==> output[ApiKeyField] == stored[ApiKeyField])
  {
    output := stored;
    if OrgIdField in input {
      output := output[OrgIdField := sanitize(input[OrgIdField])];
    }
    if ApiKeyField in input {
      var submitted := Trim(input[ApiKeyField]);
      if submitted != "" {
        output := output[ApiKeyField := sanitize(submitted)];
      } else if ApiKeyField in stored {
        output := output[ApiKeyField := stored[ApiKeyField]];
      }
    }
  }

  /** A key of whitespace only counts as blank and leaves the stored key in place. */
  lemma WhitespaceKeyIsBlank(s: string)
    requires forall i :: 0 <= i < |s| ==> IsTrimmed(s[i])
    ensures Trim(s) == ""
  {
    TrimBlank(s);
  }

  /** The displayed key: asterisks for every character but the last four, which show only on keys longer than four. */
  function Mask(value: string): (masked: string)
    ensures |masked| == |value|
    ensures forall i :: 0 <= i < |value| ==>
      masked[i] == if |value| > 4 && i >= |value| - 4 then value[i] else '*'
  {
    var len := |value|;
    if len > 4 then
      var masked := Repeat('*', len - 4) + value[len - 4..];
      assert forall i :: len - 4 <= i < len ==> masked[i] == value[len - 4..][i - (len - 4)];
      masked
    else Repeat('*', len)
  }

  lemma MaskExamples()
    ensures Mask("secret") == "**cret"
    ensures Mask("abcd") == "****"
    ensures Mask("") == ""
  {
    assert Mask("secret")[..2] == "**";
  }

  /** The arguments a settings field is registered with. */
  datatype FieldArgs = FieldArgs(labelFor: string, fieldType: Option<string>)

  /** What `neoncrm_calendar_text_input` prints: the input's type and value, and the masked-key note if any. */
  datatype FieldHtml = FieldHtml(inputType: string, name: string, valueAttr: string, maskNote: Option<string>)

  function TextInput(args: FieldArgs, options: map<string, string>): (html: FieldHtml)
    ensures html.inputType == args.fieldType.GetOr("text")
    ensures html.inputType == "password" ==> html.valueAttr == ""
    ensures html.inputType != "password" ==>
      html.valueAttr == if args.labelFor in options then options[args.labelFor] else ""
    ensures html.maskNote.Some? <==>
      html.inputType == "password" && args.labelFor in options && !PhpEmpty(options[args.labelFor])
    ensures html.maskNote.Some? ==> html.maskNote.value == Mask(options[args.labelFor])
  {
    var value := if args.labelFor in options then options[args.labelFor] else "";
    var fieldType := args.fieldType.GetOr("text");
    var valueAttr := if fieldType == "password" then "" else value;
    var note := if fieldType == "password" && !PhpEmpty(value) then Some(Mask(value)) else None;
    FieldHtml(fieldType, "neoncrm_calendar_options[" + args.labelFor + "]", valueAttr, note)
  }

  /** The API key is never sent back to the browser: the form shows at most its mask. */
  lemma StoredKeyNeverPrefilled(options: map<string, string>)
    ensures var html := TextInput(FieldArgs(ApiKeyField, Some("password")), options);
      && html.valueAttr == ""
      && (html.maskNote.Some? ==> |html.maskNote.value| == |options[ApiKeyField]|)
  {
  }
}
