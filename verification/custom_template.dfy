/** The dialog in which the user names and writes a prompt template of
    their own. */
module CustomTemplate {
  import opened Wrappers
  import opened Strings

  /** What `onSave` receives. */
  datatype Template = Template(name: string, template: string)

  const RequiredMessage: string := "Both name and prompt are required."

  /** The decision `handleSave` takes on the typed fields: the template to
      hand to `onSave`, exactly as typed, or the message to show. */
  function SaveDecision(name: string, template: string): (r: Result<Template, string>)
    ensures r.Ok? <==> !IsBlank(name) && !IsBlank(template)
    ensures r.Ok? ==> r.value == Template(name, template)
    ensures r.Err? ==> r.error == RequiredMessage
  {
    if IsBlank(name) || IsBlank(template) then Err(RequiredMessage)
    else Ok(Template(name, template))
  }

  /** A saved template never has a blank name or prompt, even though it
      keeps any whitespace around them: trimming the saved name gives a
      non-empty string that starts and ends with a visible character. */
  lemma SavedIsNonBlank(name: string, template: string)
    requires SaveDecision(name, template).Ok?
    ensures var t := SaveDecision(name, template).value;
      && Trim(t.name) != [] && !IsJsWhitespace(Trim(t.name)[0])
      && Trim(t.template) != [] && !IsJsWhitespace(Trim(t.template)[0])
  {
  }

  /** Whitespace-only fields are rejected whatever else was typed. */
  lemma BlankRejected(name: string, template: string)
    requires AllWhitespace(name) || AllWhitespace(template)
    ensures SaveDecision(name, template) == Err(RequiredMessage)
  {
  }

  class CustomTemplateModal {
    var name: string
    var template: string
    var error: string

    constructor ()
      ensures name == "" && template == "" && error == ""
    {
      name := "";
      template := "";
      error := "";
    }

    /** The effect that runs when the dialog opens: every field is cleared. */
    method Open()
      modifies this
      ensures name == "" && template == "" && error == ""
    {
      name := "";
      template := "";
      error := "";
    }

    /** The `onChange` handlers of the two inputs. */
    method SetName(v: string)
      modifies this
      ensures name == v && template == old(template) && error == old(error)
    {
      name := v;
    }

    method SetTemplate(v: string)
      modifies this
      ensures template == v && name == old(name) && error == old(error)
    {
      template := v;
    }

    /** `handleSave`: with a blank field it shows the message and saves
        nothing; otherwise it hands the fields, untrimmed, to `onSave` and
        changes no field (an earlier message stays until the next open). */
    method HandleSave() returns (saved: Option<Template>)
      modifies this
      ensures name == old(name) && template == old(template)
      ensures saved.Some? <==> SaveDecision(old(name), old(template)).Ok?
      ensures saved.Some? ==> saved.value == Template(name, template) && error == old(error)
      ensures saved.None? ==> error == RequiredMessage
    {
      if IsBlank(name) || IsBlank(template) {
        error := RequiredMessage;
        return None;
      }
      saved := Some(Template(name, template));
    }
  }

  /** Typing blank text and saving leaves the message; reopening clears it,
      and saving a filled-in dialog then hands over the typed fields. */
  method SaveAfterReopen(m: CustomTemplateModal, n: string, t: string) returns (first: Option<Template>, second: Option<Template>)
    modifies m
    requires !IsBlank(n) && !IsBlank(t)
    ensures first == None && second == Some(Template(n, t)) && m.error == ""
  {
    m.SetName("   ");
    m.SetTemplate(t);
    assert AllWhitespace("   ");
    first := m.HandleSave();
    assert m.error == RequiredMessage;
    m.Open();
    m.SetName(n);
    m.SetTemplate(t);
    second := m.HandleSave();
  }
}
