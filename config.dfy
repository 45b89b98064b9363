/** The constant data the generators sample from (the pools of realistic
    Brazilian-Portuguese content) and the dataset's size parameters. */
module Config {

  /** Who wrote a chat message: the tuple's second component, 'sent' or 'received'. */
  datatype Direction = Sent | Received

  /** One `(text, direction)` entry of a WhatsApp conversation. */
  datatype Message = Message(text: string, direction: Direction)

  const POSTS_PER_PLATFORM: nat := 20
  const MANIPULATIONS_PER_POST: nat := 3

  /** Entry `i` of `RealTweets()`. The pool is listed by position so that a proof
      unfolds only the entries it reads. */
  function TweetAt(i: nat): string
    requires i < 20
  {
    match i
    case 0 => "Acabei de assistir esse filme e não consigo parar de pensar nele. Simplesmente incrível!"
    case 1 => "Alguém mais acha que segunda-feira deveria ser cancelada? Quem concorda?"
    case 2 => "Café da manhã perfeito: pão na chapa, café passado e um bom livro. Vida simples é vida feliz."
    case 3 => "O trânsito hoje está impossível. 2 horas pra chegar no trabalho, isso não é vida."
    case 4 => "Esse governo precisa entender que educação é prioridade. Investir em escola é investir no futuro."
    case 5 => "Recém voltei da praia e já estou com saudade. Final de semana passou voando!"
    case 6 => "Tecnologia avançando e a gente aqui ainda com internet lenta. Brasil precisa melhorar muito."
    case 7 => "Parabéns pra todos os professores que fazem a diferença! Vocês são essenciais."
    case 8 => "Nada como um bom churrasco no domingo com a família. Tradição que nunca morre!"
    case 9 => "Importante: vacinem suas crianças. Ciência salva vidas, fake news mata."
    case 10 => "Clima tá maluco. Calor de 40 graus num dia e chuva torrencial no outro."
    case 11 => "Se você ainda não assistiu aquela série nova, tá perdendo tempo. Melhor coisa do ano."
    case 12 => "Mercado tá caro demais. Comprei 3 coisas e gastei uma fortuna."
    case 13 => "Música boa é aquela que te faz parar tudo e só sentir. Hoje foi assim."
    case 14 => "Acabei de terminar um projeto que levou meses. Sensação de dever cumprido!"
    case 15 => "Saúde mental importa. Cuidem de vocês, busquem ajuda quando necessário."
    case 16 => "Time jogou muito mal hoje. Não dá pra perder um jogo desses em casa."
    case 17 => "Alguém tem dica de livro bom? Terminei o último e tô perdido sem saber o que ler."
    case 18 => "Respeitem os entregadores. Eles trabalham muito e merecem reconhecimento."
    case _ => "Dia de sol, praia lotada e água de coco gelada. É disso que eu gosto!"
  }

  function RealTweets(): seq<string> { seq(20, i requires 0 <= i < 20 => TweetAt(i)) }

  /** Entry `i` of `RealCaptions()`. The pool is listed by position so that a proof
      unfolds only the entries it reads. */
  function CaptionAt(i: nat): string
    requires i < 20
  {
    match i
    case 0 => "Dias simples são os melhores ☀️"
    case 1 => "Aquele momento que a gente não esquece ✨"
    case 2 => "Felicidade é estar com quem importa 💙"
    case 3 => "Novas memórias sendo criadas 📸"
    case 4 => "Vivendo um dia de cada vez"
    case 5 => "Gratidão por mais um dia incrível 🙏"
    case 6 => "A vida é feita de pequenos momentos"
    case 7 => "Energia boa, pessoas melhores ✨"
    case 8 => "Sorria, a vida é curta demais"
    case 9 => "Momentos que viram saudade 💛"
    case 10 => "Paz interior é tudo que precisamos"
    case 11 => "Fim de semana do jeito que a gente ama"
    case 12 => "Natureza curando a alma 🌿"
    case 13 => "Café e boas conversas ☕"
    case 14 => "Pôr do sol que aquece o coração"
    case 15 => "Família é onde a vida começa ❤️"
    case 16 => "Ser feliz é uma escolha diária"
    case 17 => "Aventuras que ficam pra sempre"
    case 18 => "Momentos perfeitos existem sim"
    case _ => "Aproveitar o agora é essencial"
  }

  function RealCaptions(): seq<string> { seq(20, i requires 0 <= i < 20 => CaptionAt(i)) }

  /** Entry `i` of `RealConversations()`. The pool is listed by position so that a proof
      unfolds only the entries it reads. */
  function ConversationAt(i: nat): seq<Message>
    requires i < 10
  {
    match i
    case 0 => [
      Message("E aí, conseguiu resolver aquele problema?", Received),
      Message("Consegui sim! Deu tudo certo no final", Sent),
      Message("Que bom! Fiquei preocupado", Received),
      Message("Obrigado por perguntar!", Sent)
    ]
    case 1 => [
      Message("Vamos marcar aquele almoço?", Received),
      Message("Bora! Que tal domingo?", Sent),
      Message("Domingo tá ótimo. Meio-dia?", Received),
      Message("Fechado! Te vejo lá", Sent)
    ]
    case 2 => [
      Message("Oi! Tudo bem?", Received),
      Message("Tudo sim, e você?", Sent),
      Message("Tudo ótimo! Te mandei aquele documento por email", Received),
      Message("Vi aqui, obrigado!", Sent)
    ]
    case 3 => [
      Message("Você viu o jogo ontem?", Received),
      Message("Vi! Que partida incrível", Sent),
      Message("Pois é! Aquele gol no final foi sensacional", Received)
    ]
    case 4 => [
      Message("Preciso de um favor", Received),
      Message("Claro, pode falar", Sent),
      Message("Consegue buscar aquele documento pra mim amanhã?", Received),
      Message("Consigo sim, sem problemas", Sent)
    ]
    case 5 => [
      Message("Chegou bem em casa?", Received),
      Message("Cheguei sim, obrigado!", Sent),
      Message("Ótimo! Foi muito bom te ver", Received),
      Message("Também adorei! Vamos repetir em breve", Sent)
    ]
    case 6 => [
      Message("Desculpa a demora pra responder", Sent),
      Message("Sem problema! Tava ocupado?", Received),
      Message("Sim, reunião que não acabava nunca", Sent)
    ]
    case 7 => [
      Message("Você recomenda aquele restaurante?", Received),
      Message("Recomendo muito! Comida excelente", Sent),
      Message("Vou marcar pra semana que vem então", Received),
      Message("Vai gostar com certeza!", Sent)
    ]
    case 8 => [
      Message("Bom dia! Como foi o final de semana?", Received),
      Message("Foi ótimo! Descansamos bastante", Sent),
      Message("Que bom! Merecido", Received)
    ]
    case _ => [
      Message("Oi! Você tá aí?", Received),
      Message("To sim, pode falar", Sent),
      Message("Esqueci de te passar uma informação importante", Received),
      Message("Qual?", Sent)
    ]
  }

  function RealConversations(): seq<seq<Message>> { seq(10, i requires 0 <= i < 10 => ConversationAt(i)) }

  const AVATAR_COLORS: seq<string> := [
    "#1DA1F2", "#E1306C", "#25D366", "#FF6900", "#8B5CF6",
    "#EC4899", "#10B981", "#F59E0B", "#6366F1", "#EF4444",
    "#06B6D4", "#84CC16", "#F97316", "#A855F7", "#14B8A6"
  ]
}
